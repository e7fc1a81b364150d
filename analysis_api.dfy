/**
 * The analysis endpoints' decisions: who may see a project, which analysis is the
 * latest, and what status a project reports.  The project lookup of
 * `ProjectService.get_project` is the parameter `getProject` (project id, user id).
 */
module AnalysisApi {
  import opened Wrappers
  import opened Auth

  /** The columns of an `Analysis` row the endpoints look at. */
  datatype Analysis = Analysis(id: int, projectId: int, completed: bool, createdAt: int)

  datatype Project = Project(id: int, userId: int)

  /** The body of `GET /status/{project_id}`. */
  datatype AnalysisStatus = NotStarted | Processing(analysisId: int) | Completed(analysisId: int)

  /** The body of `POST /run/{project_id}`: the analysis is scheduled and reported `processing`. */
  datatype RunAccepted = RunAccepted(projectId: int)

  /** `filter(Analysis.project_id == project_id).order_by(created_at.desc()).first()`;
      among rows created at the same instant the earliest stored one is taken. */
  function LatestAnalysis(analyses: seq<Analysis>, projectId: int): (r: Option<Analysis>)
    ensures r.None? <==> forall i :: 0 <= i < |analyses| ==> analyses[i].projectId != projectId
    ensures r.Some? ==> r.value in analyses && r.value.projectId == projectId
    ensures r.Some? ==> forall i :: 0 <= i < |analyses| && analyses[i].projectId == projectId ==>
                          analyses[i].createdAt <= r.value.createdAt
  {
    if analyses == [] then None
    else
      var rest := LatestAnalysis(analyses[1..], projectId);
      assert forall i :: 1 <= i < |analyses| ==> analyses[i] == analyses[1..][i - 1];
      var a := analyses[0];
      if a.projectId != projectId then rest
      else if rest.None? || rest.value.createdAt <= a.createdAt then Some(a)
      else rest
  }

  /** The guard every analysis endpoint starts with: resolve the token's user (401),
      then look the project up for that user (404). */
  function OwnedProject(users: seq<User>, token: string, now: int,
                        decode: (string, int) -> Option<Claims>,
                        getProject: (int, int) -> Option<Project>, projectId: int): (r: Result<Project>)
    ensures r.Err? ==> r.error.status == 401 || r.error == HttpError(404, "Project not found")
    ensures r.Err? && r.error.status == 404 <==>
              GetCurrentUser(users, token, now, decode).Ok?
              && getProject(projectId, GetCurrentUser(users, token, now, decode).value.id).None?
    ensures r.Ok? <==> GetCurrentUser(users, token, now, decode).Ok?
                       && getProject(projectId, GetCurrentUser(users, token, now, decode).value.id).Some?
  {
    match GetCurrentUser(users, token, now, decode)
    case Err(e) => Err(e)
    case Ok(user) =>
      match getProject(projectId, user.id)
      case None => Err(HttpError(404, "Project not found"))
      case Some(project) => Ok(project)
  }

  /** `run_analysis`: accept the request once the guard passes; the analysis itself
      runs in the background. */
  function RunAnalysis(users: seq<User>, token: string, now: int,
                       decode: (string, int) -> Option<Claims>,
                       getProject: (int, int) -> Option<Project>, projectId: int): (r: Result<RunAccepted>)
    ensures r.Ok? <==> OwnedProject(users, token, now, decode, getProject, projectId).Ok?
    ensures r.Ok? ==> r.value.projectId == projectId
    ensures r.Err? ==> r.error == OwnedProject(users, token, now, decode, getProject, projectId).error
  {
    match OwnedProject(users, token, now, decode, getProject, projectId)
    case Err(e) => Err(e)
    case Ok(_) => Ok(RunAccepted(projectId))
  }

  /** `get_analysis_results`: the latest analysis of an owned project, 404 when there is none. */
  function GetAnalysisResults(users: seq<User>, token: string, now: int,
                              decode: (string, int) -> Option<Claims>,
                              getProject: (int, int) -> Option<Project>,
                              analyses: seq<Analysis>, projectId: int): (r: Result<Analysis>)
    ensures OwnedProject(users, token, now, decode, getProject, projectId).Err? ==>
              r == Err(OwnedProject(users, token, now, decode, getProject, projectId).error)
    ensures r == Err(HttpError(404, "No analysis found for this project")) <==>
              OwnedProject(users, token, now, decode, getProject, projectId).Ok?
              && forall i :: 0 <= i < |analyses| ==> analyses[i].projectId != projectId
    ensures r.Ok? ==> r.value in analyses && r.value.projectId == projectId
                      && forall i :: 0 <= i < |analyses| && analyses[i].projectId == projectId ==>
                           analyses[i].createdAt <= r.value.createdAt
    ensures OwnedProject(users, token, now, decode, getProject, projectId).Ok?
            && LatestAnalysis(analyses, projectId).Some? ==>
              r == Ok(LatestAnalysis(analyses, projectId).value)
  {
    match OwnedProject(users, token, now, decode, getProject, projectId)
    case Err(e) => Err(e)
    case Ok(_) =>
      match LatestAnalysis(analyses, projectId)
      case None => Err(HttpError(404, "No analysis found for this project"))
      case Some(analysis) => Ok(analysis)
  }

  /** `get_analysis_status`: `not_started` without analyses, otherwise `completed` or
      `processing` according to the latest analysis, with its id. */
  function GetAnalysisStatus(users: seq<User>, token: string, now: int,
                             decode: (string, int) -> Option<Claims>,
                             getProject: (int, int) -> Option<Project>,
                             analyses: seq<Analysis>, projectId: int): (r: Result<AnalysisStatus>)
    ensures OwnedProject(users, token, now, decode, getProject, projectId).Err? ==>
              r == Err(OwnedProject(users, token, now, decode, getProject, projectId).error)
    ensures r == Ok(NotStarted) <==>
              OwnedProject(users, token, now, decode, getProject, projectId).Ok?
              && forall i :: 0 <= i < |analyses| ==> analyses[i].projectId != projectId
    ensures r.Ok? && !r.value.NotStarted? ==>
              var latest := LatestAnalysis(analyses, projectId);
              latest.Some? && r.value.analysisId == latest.value.id
              && (r.value.Completed? <==> latest.value.completed)
    ensures r.Ok? <==> OwnedProject(users, token, now, decode, getProject, projectId).Ok?
    ensures OwnedProject(users, token, now, decode, getProject, projectId).Ok?
            && LatestAnalysis(analyses, projectId).Some? ==>
              var latest := LatestAnalysis(analyses, projectId).value;
              r == Ok(if latest.completed then Completed(latest.id) else Processing(latest.id))
  {
    match OwnedProject(users, token, now, decode, getProject, projectId)
    case Err(e) => Err(e)
    case Ok(_) =>
      match LatestAnalysis(analyses, projectId)
      case None => Ok(NotStarted)
      case Some(analysis) =>
        if analysis.completed then Ok(Completed(analysis.id)) else Ok(Processing(analysis.id))
  }

  /** The status endpoint and the results endpoint agree: `not_started` exactly when
      results are missing, and otherwise both speak of the same analysis. */
  lemma StatusAgreesWithResults(users: seq<User>, token: string, now: int,
                                decode: (string, int) -> Option<Claims>,
                                getProject: (int, int) -> Option<Project>,
                                analyses: seq<Analysis>, projectId: int)
    ensures var s := GetAnalysisStatus(users, token, now, decode, getProject, analyses, projectId);
            var a := GetAnalysisResults(users, token, now, decode, getProject, analyses, projectId);
            (s.Err? <==> a.Err? && a.error.detail != "No analysis found for this project")
            && (s == Ok(NotStarted) <==> a == Err(HttpError(404, "No analysis found for this project")))
            && (s.Ok? && !s.value.NotStarted? ==>
                  a.Ok? && a.value.id == s.value.analysisId && (s.value.Completed? <==> a.value.completed))
  {
  }
}
