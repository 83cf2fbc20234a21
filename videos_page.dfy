/** The videos page: duration and status rendering rules, which actions a
    row offers, when the upload button is disabled, and the handlers that
    upload a selection one file at a time and keep the pager in step. */
module VideosPage {
  import opened Common
  import opened Types
  import opened Http
  import opened UseVideos
  import opened UsePagination

  // ---------------------------------------------------------------------
  // Duration

  /** The `%` of JavaScript: the remainder takes the sign of the dividend. */
  function JsRem(a: int, b: int): (r: int)
    requires b > 0
    ensures a >= 0 ==> r == a % b
    ensures -b < r < b
  {
    if a >= 0 then a % b else -((-a) % b)
  }

  /** `padStart(2, '0')` */
  function PadStart2(s: string): (r: string)
    ensures |r| == if |s| >= 2 then |s| else 2
    ensures r[|r| - |s|..] == s
  {
    if |s| >= 2 then s else seq(2 - |s|, _ => '0') + s
  }

  /** `formatDuration`: `Math.floor` on both divisions (Dafny's division
      by a positive number is the floor), `%` on the seconds. */
  function FormatDuration(millis: int): string {
    var totalSeconds := millis / 1000;
    var minutes := totalSeconds / 60;
    var seconds := JsRem(totalSeconds, 60);
    IntToString(minutes) + ":" + PadStart2(IntToString(seconds))
  }

  /** Reads `m:ss` back as a number of seconds. */
  function ParseDuration(s: string): Option<int> {
    var k := LastIndexOf(s, ':');
    if k < 0 || !AllDigits(s[..k]) || !AllDigits(s[k + 1..]) then None
    else Some(ParseNat(s[..k]) * 60 + ParseNat(s[k + 1..]))
  }

  /** The two-digit seconds field of a second count below 60. */
  lemma SecondsField(ss: nat)
    requires ss < 60
    ensures var f := PadStart2(IntToString(ss));
      |f| == 2 && AllDigits(f) && ParseNat(f) == ss
  {
    var f := PadStart2(IntToString(ss));
    if ss < 10 {
      assert f == ['0', Digit(ss)];
      assert f[..1] == ['0'];
      assert ParseNat(f[..1]) == ParseNat([]) * 10 + 0;
    } else {
      assert NatToString(ss) == NatToString(ss / 10) + [Digit(ss % 10)];
      ParseNatToString(ss);
    }
  }

  /** Digits, a colon, digits: the colon found last is the one between. */
  lemma SplitAtColon(a: string, b: string)
    requires AllDigits(b)
    ensures var r := a + ":" + b;
      && LastIndexOf(r, ':') == |a|
      && r[..|a|] == a && r[|a| + 1..] == b
  {
    var r := a + ":" + b;
    assert r[|a|] == ':';
    assert forall j :: |a| < j < |r| ==> r[j] == b[j - |a| - 1];
  }

  /** `ParseDuration` once the last colon and the two digit runs are known. */
  lemma ParseDurationAt(r: string, k: nat, minutes: nat, seconds: nat)
    requires k < |r| && LastIndexOf(r, ':') == k && AllDigits(r[..k]) && AllDigits(r[k + 1..])
    requires ParseNat(r[..k]) == minutes && ParseNat(r[k + 1..]) == seconds
    ensures ParseDuration(r) == Some(minutes * 60 + seconds)
  {
    var k' := LastIndexOf(r, ':');
    assert k' == k;
    assert !(k' < 0 || !AllDigits(r[..k']) || !AllDigits(r[k' + 1..]));
  }

  /** The text of `m` minutes and `ss` seconds, split at its last colon,
      reads back as `m * 60 + ss`. */
  lemma MinutesSecondsText(m: nat, ss: nat)
    requires ss < 60
    ensures var r := IntToString(m) + ":" + PadStart2(IntToString(ss));
      && LastIndexOf(r, ':') == |r| - 3
      && AllDigits(r[|r| - 2..]) && ParseNat(r[|r| - 2..]) == ss
      && ParseDuration(r) == Some(m * 60 + ss)
  {
    var mText := IntToString(m);
    var sText := PadStart2(IntToString(ss));
    var r := mText + ":" + sText;
    SecondsField(ss);
    SplitAtColon(mText, sText);
    assert |r| == |mText| + 3;
    assert r[..|mText|] == mText && r[|mText| + 1..] == sText;
    assert mText == NatToString(m);
    ParseNatToString(m);
    assert ParseNat(r[..|mText|]) == m && ParseNat(r[|mText| + 1..]) == ss;
    ParseDurationAt(r, |mText|, m, ss);
  }

  /** For a non-negative duration the text is minutes, a colon and exactly
      two digits of seconds below 60, and it reads back as the whole number
      of seconds `millis div 1000`. */
  lemma FormatDurationRoundTrip(millis: int)
    requires millis >= 0
    ensures var r := FormatDuration(millis);
      var k := LastIndexOf(r, ':');
      && k == |r| - 3
      && AllDigits(r[k + 1..]) && ParseNat(r[k + 1..]) < 60
      && ParseDuration(r) == Some(millis / 1000)
  {
    var t := millis / 1000;
    var m, ss := t / 60, t % 60;
    assert JsRem(t, 60) == ss;
    assert m * 60 + ss == t;
    var r := FormatDuration(millis);
    assert r == IntToString(m) + ":" + PadStart2(IntToString(ss));
    MinutesSecondsText(m, ss);
  }

  // ---------------------------------------------------------------------
  // Status

  /** `getEstadoTexto` */
  function EstadoTexto(status: string): (text: string)
    ensures status !in {Uploaded, Processing, Failed} ==> text == status
  {
    if status == Uploaded then "Listo"
    else if status == Processing then "Procesando..."
    else if status == Failed then "Error"
    else status
  }

  const DefaultColor: string := "bg-slate-500/20 text-slate-400"

  /** `getEstadoColor` */
  function EstadoColor(status: string): (cls: string)
    ensures status !in {Uploaded, Processing, Failed} ==> cls == DefaultColor
  {
    if status == Uploaded then "bg-green-500/20 text-green-400"
    else if status == Processing then "bg-blue-500/20 text-blue-400"
    else if status == Failed then "bg-red-500/20 text-red-400"
    else DefaultColor
  }

  /** Each known status has its own label and its own class, none of them
      the default class; a known status is never shown as its raw value. */
  lemma KnownStatusesDistinct()
    ensures EstadoColor(Uploaded) != EstadoColor(Processing) && EstadoColor(Processing) != EstadoColor(Failed) && EstadoColor(Failed) != EstadoColor(Uploaded)
    ensures forall s :: s in {Uploaded, Processing, Failed} ==> EstadoColor(s) != DefaultColor && EstadoTexto(s) != s
    ensures EstadoTexto(Uploaded) != EstadoTexto(Processing) && EstadoTexto(Processing) != EstadoTexto(Failed) && EstadoTexto(Failed) != EstadoTexto(Uploaded)
  {
  }

  datatype Action = TrimAction | DownloadAction | DeleteAction

  /** The buttons a row shows: trim and download only for an uploaded
      video, delete always. */
  function OfferedActions(status: string): (actions: set<Action>)
    ensures DeleteAction in actions
    ensures TrimAction in actions <==> status == Uploaded
    ensures DownloadAction in actions <==> status == Uploaded
  {
    if status == Uploaded then {TrimAction, DownloadAction, DeleteAction} else {DeleteAction}
  }

  /** `isUploading || !proyectoIdParam || loading` */
  function UploadButtonDisabled(isUploading: bool, proyectoIdParam: Option<string>, loading: bool): (disabled: bool)
    ensures !disabled ==> HasProject(proyectoIdParam) && !isUploading && !loading
  {
    isUploading || !HasProject(proyectoIdParam) || loading
  }

  // ---------------------------------------------------------------------
  // Uploading a selection

  /** The uploads of `files`, one after the other, in order. */
  function UploadAll(s: VideosState, w: World, server: Server, baseUrl: string,
                     projectId: Option<string>, page: int, size: int, files: seq<VideoFile>): After
    decreases |files|
  {
    if files == [] then After(s, w)
    else
      var a := UploadAll(s, w, server, baseUrl, projectId, page, size, files[..|files| - 1]);
      UploadSpec(a.state, a.world, server, baseUrl, projectId, page, size, files[|files| - 1])
  }

  /** A selection in which every file fails validation uploads nothing:
      no request, no state change, one warning toast per file. */
  lemma {:induction false} RefusedSelectionSendsNothing(s: VideosState, w: World, server: Server, baseUrl: string,
                                                        projectId: Option<string>, page: int, size: int,
                                                        files: seq<VideoFile>)
    requires forall i :: 0 <= i < |files| ==> ValidateFile(files[i]).Invalid?
    ensures var a := UploadAll(s, w, server, baseUrl, projectId, page, size, files);
      && a.state == s && a.world.sent == w.sent && a.world.token == w.token
      && |a.world.events| == |w.events| + |files|
    decreases |files|
  {
    if files != [] {
      var init := files[..|files| - 1];
      RefusedSelectionSendsNothing(s, w, server, baseUrl, projectId, page, size, init);
      var a := UploadAll(s, w, server, baseUrl, projectId, page, size, init);
      UploadRefusedSendsNothing(a.state, a.world, server, baseUrl, projectId, page, size, files[|files| - 1]);
    }
  }

  class VideosPageView {
    const controller: VideosController
    const pagination: Pagination
    /** The file input's value. */
    var inputValue: string

    constructor (controller: VideosController, pagination: Pagination)
      ensures this.controller == controller && this.pagination == pagination && inputValue == ""
    {
      this.controller := controller;
      this.pagination := pagination;
      inputValue := "";
    }

    /** `handleUpload`: nothing for an absent or empty selection; otherwise
        each file in order, then the input is cleared and the pager reset. */
    method HandleUpload(files: Option<seq<VideoFile>>)
      modifies this, controller, controller.client.host, pagination
      ensures files.None? || files.value == [] ==>
        controller.State() == old(controller.State()) &&
        controller.client.host.View() == old(controller.client.host.View()) &&
        inputValue == old(inputValue) && pagination.currentPage == old(pagination.currentPage)
      ensures files.Some? && files.value != [] ==>
        After(controller.State(), controller.client.host.View()) ==
          UploadAll(old(controller.State()), old(controller.client.host.View()), controller.client.host.server,
                    controller.client.baseUrl, controller.projectId, controller.page, controller.size, files.value) &&
        inputValue == "" && pagination.currentPage == 0
      ensures pagination.totalPages == old(pagination.totalPages)
    {
      if files.None? || files.value == [] {
        return;
      }
      var fs := files.value;
      var i := 0;
      while i < |fs|
        invariant 0 <= i <= |fs|
        invariant After(controller.State(), controller.client.host.View()) ==
          UploadAll(old(controller.State()), old(controller.client.host.View()), controller.client.host.server,
                    controller.client.baseUrl, controller.projectId, controller.page, controller.size, fs[..i])
        invariant pagination.totalPages == old(pagination.totalPages)
      {
        controller.UploadVideo(fs[i]);
        assert fs[..i + 1][..i] == fs[..i];
        i := i + 1;
      }
      assert fs[..|fs|] == fs;
      inputValue := "";
      pagination.ResetPage();
    }

    /** `handleRecortar`: only a notification. */
    method HandleRecortar(id: int)
      modifies controller.client.host
      ensures controller.client.host.View() ==
        WithToast(old(controller.client.host.View()),
                  Toast("Herramienta de recorte", "Abriendo editor de recorte vertical a horizontal", false))
    {
      controller.client.host.Notify(Toast("Herramienta de recorte", "Abriendo editor de recorte vertical a horizontal", false));
    }

    /** `handleEliminar`: the hook's delete, nothing more. */
    method HandleEliminar(id: int)
      modifies controller, controller.client.host
      ensures After(controller.State(), controller.client.host.View()) ==
        DeleteSpec(old(controller.State()), old(controller.client.host.View()), controller.client.host.server,
                   controller.client.baseUrl, controller.projectId, controller.page, controller.size, id)
    {
      controller.DeleteVideo(id);
    }

    /** The render-time sync: the pager takes the hook's page count when
        they differ, and the current page is kept. */
    method SyncTotalPages()
      modifies pagination
      ensures pagination.totalPages == controller.totalPages
      ensures pagination.currentPage == old(pagination.currentPage)
    {
      if controller.totalPages != pagination.totalPages {
        pagination.SetTotalPages(controller.totalPages);
      }
    }
  }
}
