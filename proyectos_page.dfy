/** The projects page: the create and edit forms with their modals, the
    guards on submitting and closing them, deletion, and the pager. */
module ProyectosPage {
  import opened Common
  import opened Types
  import opened Http
  import opened UseProyectos
  import opened UsePagination

  datatype ProjectForm = ProjectForm(nombre: string, descripcion: string)

  const EmptyForm: ProjectForm := ProjectForm("", "")

  /** `!nombre.trim()` is false: the name has a non-whitespace character. */
  predicate HasName(form: ProjectForm) {
    Trim(form.nombre) != ""
  }

  /** A name passes the guard exactly when it is not all whitespace. */
  lemma HasNameIffNotBlank(form: ProjectForm)
    ensures HasName(form) <==> !AllSpace(form.nombre)
  {
    TrimEmptyIffAllSpace(form.nombre);
  }

  function DtoOf(form: ProjectForm): ProyectoDto {
    ProyectoDto(form.nombre, form.descripcion)
  }

  class ProyectosPageView {
    const controller: ProyectosController
    const pagination: Pagination
    var formData: ProjectForm
    var editFormData: ProjectForm
    var editingProjectId: Option<int>
    var createModalOpen: bool
    var editModalOpen: bool

    constructor (controller: ProyectosController, pagination: Pagination)
      ensures this.controller == controller && this.pagination == pagination
      ensures formData == EmptyForm && editFormData == EmptyForm && editingProjectId == None
      ensures !createModalOpen && !editModalOpen
    {
      this.controller := controller;
      this.pagination := pagination;
      formData := EmptyForm;
      editFormData := EmptyForm;
      editingProjectId := None;
      createModalOpen := false;
      editModalOpen := false;
    }

    /** The render-time sync: the pager takes the hook's page count when
        they differ, and the current page is kept. */
    method SyncTotalPages()
      modifies pagination
      ensures pagination.totalPages == controller.totalPages
      ensures pagination.currentPage == old(pagination.currentPage)
    {
      if controller.totalPages != pagination.totalPages {
        pagination.SetTotalPages(controller.totalPages);
      }
    }

    method HandleNuevoProyecto()
      modifies this
      ensures formData == EmptyForm && createModalOpen
      ensures editFormData == old(editFormData) && editingProjectId == old(editingProjectId)
      ensures editModalOpen == old(editModalOpen)
    {
      formData := EmptyForm;
      createModalOpen := true;
    }

    /** `handleCrearProyecto`: a blank name does nothing; on success the
        modal closes, the form resets and the pager goes to page 0; on
        failure (already reported by the hook) the form stays as it was. */
    method HandleCrearProyecto()
      modifies this, controller, controller.client.host, pagination
      ensures !old(HasName(formData)) ==>
        formData == old(formData) && createModalOpen == old(createModalOpen) &&
        controller.State() == old(controller.State()) &&
        controller.client.host.View() == old(controller.client.host.View()) &&
        pagination.currentPage == old(pagination.currentPage)
      ensures old(HasName(formData)) ==>
        var r := CreateSpec(old(controller.State()), old(controller.client.host.View()), controller.client.host.server,
                            controller.client.baseUrl, controller.page, controller.size, old(DtoOf(formData)));
        && controller.State() == r.state && controller.client.host.View() == r.world
        && (r.thrown.None? ==> !createModalOpen && formData == EmptyForm && pagination.currentPage == 0)
        && (r.thrown.Some? ==> createModalOpen == old(createModalOpen) && formData == old(formData) &&
                               pagination.currentPage == old(pagination.currentPage))
      ensures pagination.totalPages == old(pagination.totalPages)
      ensures editFormData == old(editFormData) && editingProjectId == old(editingProjectId)
      ensures editModalOpen == old(editModalOpen)
    {
      if Trim(formData.nombre) == "" {
        return;
      }
      SubmitCreate(DtoOf(formData));
    }

    /** The creation of a guarded create submit and what follows it. */
    method SubmitCreate(dto: ProyectoDto)
      modifies this, controller, controller.client.host, pagination
      ensures var r := CreateSpec(old(controller.State()), old(controller.client.host.View()), controller.client.host.server,
                                  controller.client.baseUrl, controller.page, controller.size, dto);
        && controller.State() == r.state && controller.client.host.View() == r.world
        && (r.thrown.None? ==> !createModalOpen && formData == EmptyForm && pagination.currentPage == 0)
        && (r.thrown.Some? ==> createModalOpen == old(createModalOpen) && formData == old(formData) &&
                               pagination.currentPage == old(pagination.currentPage))
      ensures pagination.totalPages == old(pagination.totalPages)
      ensures editFormData == old(editFormData) && editingProjectId == old(editingProjectId)
      ensures editModalOpen == old(editModalOpen)
    {
      var thrown := controller.CreateProyecto(dto);
      if thrown.None? {
        createModalOpen := false;
        formData := EmptyForm;
        pagination.ResetPage();
      }
    }

    /** Closing the create modal is ignored while a creation is in flight. */
    method HandleCloseModal()
      modifies this
      ensures controller.isCreating ==> formData == old(formData) && createModalOpen == old(createModalOpen)
      ensures !controller.isCreating ==> formData == EmptyForm && !createModalOpen
      ensures editFormData == old(editFormData) && editingProjectId == old(editingProjectId)
      ensures editModalOpen == old(editModalOpen)
    {
      if !controller.isCreating {
        createModalOpen := false;
        formData := EmptyForm;
      }
    }

    method HandleEditClick(p: Proyecto)
      modifies this
      ensures editingProjectId == Some(p.id) && editFormData == ProjectForm(p.nombre, p.descripcion)
      ensures editModalOpen
      ensures formData == old(formData) && createModalOpen == old(createModalOpen)
    {
      editingProjectId := Some(p.id);
      editFormData := ProjectForm(p.nombre, p.descripcion);
      editModalOpen := true;
    }

    /** `handleEditProyecto`: ignored for a blank name or when no project is
        being edited; on success the edit state is cleared. */
    method HandleEditProyecto()
      modifies this, controller, controller.client.host
      ensures !old(HasName(editFormData)) || old(editingProjectId).None? ==>
        editFormData == old(editFormData) && editingProjectId == old(editingProjectId) &&
        editModalOpen == old(editModalOpen) &&
        controller.State() == old(controller.State()) &&
        controller.client.host.View() == old(controller.client.host.View())
      ensures old(HasName(editFormData)) && old(editingProjectId).Some? ==>
        var r := UpdateSpec(old(controller.State()), old(controller.client.host.View()), controller.client.host.server,
                            controller.client.baseUrl, controller.page, controller.size,
                            old(editingProjectId).value, old(DtoOf(editFormData)));
        && controller.State() == r.state && controller.client.host.View() == r.world
        && (r.thrown.None? ==> !editModalOpen && editingProjectId == None && editFormData == EmptyForm)
        && (r.thrown.Some? ==> editModalOpen == old(editModalOpen) && editingProjectId == old(editingProjectId) &&
                               editFormData == old(editFormData))
      ensures formData == old(formData) && createModalOpen == old(createModalOpen)
    {
      if Trim(editFormData.nombre) == "" || editingProjectId.None? {
        return;
      }
      SubmitEdit(editingProjectId.value, DtoOf(editFormData));
    }

    /** The update of a guarded edit submit and what follows it. */
    method SubmitEdit(id: int, dto: ProyectoDto)
      modifies this, controller, controller.client.host
      ensures var r := UpdateSpec(old(controller.State()), old(controller.client.host.View()), controller.client.host.server,
                                  controller.client.baseUrl, controller.page, controller.size, id, dto);
        && controller.State() == r.state && controller.client.host.View() == r.world
        && (r.thrown.None? ==> !editModalOpen && editingProjectId == None && editFormData == EmptyForm)
        && (r.thrown.Some? ==> editModalOpen == old(editModalOpen) && editingProjectId == old(editingProjectId) &&
                               editFormData == old(editFormData))
      ensures formData == old(formData) && createModalOpen == old(createModalOpen)
    {
      var thrown := controller.UpdateProyecto(id, dto);
      if thrown.None? {
        editModalOpen := false;
        editingProjectId := None;
        editFormData := EmptyForm;
      }
    }

    /** Closing the edit modal is ignored while an update is in flight. */
    method HandleCloseEditModal()
      modifies this
      ensures controller.isUpdating ==>
        editFormData == old(editFormData) && editingProjectId == old(editingProjectId) && editModalOpen == old(editModalOpen)
      ensures !controller.isUpdating ==> editFormData == EmptyForm && editingProjectId == None && !editModalOpen
      ensures formData == old(formData) && createModalOpen == old(createModalOpen)
    {
      if !controller.isUpdating {
        editModalOpen := false;
        editingProjectId := None;
        editFormData := EmptyForm;
      }
    }

    /** `handleEliminar`: the pager goes back to page 0 only on success. */
    method HandleEliminar(id: int)
      modifies controller, controller.client.host, pagination
      ensures var r := DeleteSpec(old(controller.State()), old(controller.client.host.View()), controller.client.host.server,
                                  controller.client.baseUrl, controller.page, controller.size, id);
        && controller.State() == r.state && controller.client.host.View() == r.world
        && pagination.currentPage == (if r.thrown.None? then 0 else old(pagination.currentPage))
      ensures pagination.totalPages == old(pagination.totalPages)
    {
      var thrown := controller.DeleteProyecto(id);
      if thrown.None? {
        pagination.ResetPage();
      }
    }

    method HandlePaginaAnterior()
      modifies pagination
      ensures pagination.currentPage == PreviousPageOf(old(pagination.currentPage))
      ensures pagination.totalPages == old(pagination.totalPages)
    {
      pagination.PreviousPage();
    }

    method HandlePaginaSiguiente()
      modifies pagination
      ensures pagination.currentPage == NextPageOf(old(pagination.currentPage), old(pagination.totalPages))
      ensures pagination.totalPages == old(pagination.totalPages)
    {
      pagination.NextPage();
    }
  }
}
