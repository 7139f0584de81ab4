/** Project request bodies and the project status enum. */
module ProjectSchema {
  import opened Common

  datatype ProjectStatus = ProjectActive | ProjectCompleted | ProjectOnHold

  function ProjectStatusName(s: ProjectStatus): string {
    match s
    case ProjectActive => "active"
    case ProjectCompleted => "completed"
    case ProjectOnHold => "on_hold"
  }

  function ParseProjectStatus(s: string): (r: Option<ProjectStatus>)
    ensures r.Some? <==> s == "active" || s == "completed" || s == "on_hold"
    ensures r.Some? ==> ProjectStatusName(r.value) == s
  {
    if s == "active" then Some(ProjectActive)
    else if s == "completed" then Some(ProjectCompleted)
    else if s == "on_hold" then Some(ProjectOnHold)
    else None
  }

  /** A validated create body: the status has been defaulted. */
  datatype ProjectCreate = ProjectCreate(name: string, description: Option<string>, status: ProjectStatus)

  /** A create body as sent. */
  datatype ProjectCreateRequest = ProjectCreateRequest(name: string, description: Option<string>, status: Option<string>)

  /** An update body: each present field is written, absent ones are left alone. */
  datatype ProjectUpdate = ProjectUpdate(name: Option<string>, description: Option<string>, status: Option<ProjectStatus>)

  /** Validate a create body: a missing status means active, a present one must be a known status. */
  function DecodeProjectCreate(req: ProjectCreateRequest): (r: Option<ProjectCreate>)
    ensures r.Some? <==> req.status.None? || ParseProjectStatus(req.status.value).Some?
    ensures r.Some? ==> r.value.name == req.name && r.value.description == req.description
    ensures r.Some? && req.status.None? ==> r.value.status == ProjectActive
    ensures r.Some? && req.status.Some? ==> ProjectStatusName(r.value.status) == req.status.value
  {
    match req.status
    case None => Some(ProjectCreate(req.name, req.description, ProjectActive))
    case Some(s) =>
      match ParseProjectStatus(s)
      case None => None
      case Some(st) => Some(ProjectCreate(req.name, req.description, st))
  }
}
