/** The console's domain records: projects in wire and UI form, the paged
    envelope, videos, the upload DTO and the upload validation constants. */
module Types {
  import opened Common

  /** A project as the service sends it. */
  datatype ProyectoApi = ProyectoApi(
    id: int,
    name: string,
    description: string,
    createdAt: string,
    updatedAt: string)

  /** A project as the UI shows it: renamed fields, no `updatedAt`. */
  datatype Proyecto = Proyecto(
    id: int,
    nombre: string,
    descripcion: string,
    creado: string)

  /** The service's paged envelope. */
  datatype PaginationResponse<T> = PaginationResponse(
    content: seq<T>,
    totalElements: int,
    totalPages: int,
    number: int,
    size: int,
    numberOfElements: int)

  /** Body of a project create or update (both DTOs have this shape). */
  datatype ProyectoDto = ProyectoDto(name: string, description: string)

  /** A video; the UI uses the wire form as it is. `status` is kept as the
      raw string because the page handles values outside the three known. */
  datatype Video = Video(
    id: int,
    title: string,
    secureUrl: string,
    format: string,
    durationInMillis: int,
    sizeInBytes: int,
    width: int,
    height: int,
    status: string,
    projectId: int,
    projectName: string,
    createdAt: string,
    updatedAt: string)

  datatype Pageable = Pageable(pageNumber: int, pageSize: int)

  datatype VideoPage = VideoPage(
    content: seq<Video>,
    pageable: Pageable,
    totalElements: int,
    totalPages: int,
    first: bool,
    last: bool)

  /** The videos list response: the page is wrapped in `data`. */
  datatype VideosResponse = VideosResponse(success: bool, message: string, data: VideoPage)

  /** The browser `File` fields the console reads: name, MIME type, size. */
  datatype VideoFile = VideoFile(name: string, mimeType: string, size: int)

  datatype UploadVideoDto = UploadVideoDto(video: VideoFile, title: string)

  datatype SortDirection = Asc | Desc {
    function Text(): string {
      match this
      case Asc => "ASC"
      case Desc => "DESC"
    }
  }

  /** Options of the videos list call; `None` stands for an omitted field. */
  datatype GetVideosOptions = GetVideosOptions(
    projectId: string,
    page: Option<int>,
    size: Option<int>,
    sortBy: Option<string>,
    sortDirection: Option<SortDirection>)

  const Uploaded: string := "UPLOADED"
  const Processing: string := "PROCESSING"
  const Failed: string := "ERROR"

  // Upload validation constants
  const MaxFileSize: int := 200 * 1024 * 1024
  const AllowedFormats: seq<string> :=
    ["video/mp4", "video/quicktime", "video/x-msvideo", "video/webm", "video/x-matroska"]
  const AllowedExtensions: seq<string> := [".mp4", ".mov", ".avi", ".webm", ".mkv"]
}
