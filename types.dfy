/**
 * The typed entities of the portal (types.ts) and their encoding as rows,
 * which is the shape in which the persistence layer stores them.
 * Optional TypeScript fields are `Option`s; an absent optional field is an
 * absent key in the row.
 */
module Types {
  import opened Wrappers
  import opened Json

  datatype UserRole =
    | MasterRoot | Admin | Ceo | ProjectManager | Developer | Designer | Analyst | Student

  /** The string value of each `UserRole` enum member. */
  function RoleName(r: UserRole): string
  {
    match r
    case MasterRoot => "Master Root"
    case Admin => "Super Admin"
    case Ceo => "CEO"
    case ProjectManager => "Project Manager"
    case Developer => "Developer"
    case Designer => "Designer"
    case Analyst => "Analyst"
    case Student => "Estudiante"
  }

  datatype Skill = Skill(name: string, level: int)

  datatype User = User(
    id: string,
    name: string,
    role: UserRole,
    email: string,
    password: Option<string>,
    avatar: string,
    skills: seq<Skill>,
    projects: seq<string>,
    completedVideoIds: Option<seq<string>>)

  datatype ProjectLog = ProjectLog(id: string, date: string, text: string, author: string, link: Option<string>)

  datatype RepoKind = GitHub | Drive | Other

  datatype Repository = Repository(id: string, alias: string, url: string, kind: RepoKind)

  datatype ProjectStatus = Planificacion | EnDesarrollo | EnQA | Despliegue | Finalizado | EnCurso

  /** The string value of each `ProjectStatus` literal. */
  function StatusName(s: ProjectStatus): string
  {
    match s
    case Planificacion => "Planificación"
    case EnDesarrollo => "En Desarrollo"
    case EnQA => "En QA"
    case Despliegue => "Despliegue"
    case Finalizado => "Finalizado"
    case EnCurso => "En Curso"
  }

  datatype Project = Project(
    id: string,
    name: string,
    client: string,
    encargadoCliente: Option<string>,
    leadId: string,
    teamIds: seq<string>,
    status: ProjectStatus,
    isOngoing: bool,
    report: bool,
    deadline: string,
    startDate: Option<string>,
    progress: int,
    description: string,
    technologies: seq<string>,
    year: int,
    logs: seq<ProjectLog>,
    repositories: seq<Repository>)

  datatype UsedId = UsedId(id: string, name: string, dateUsed: string, createdBy: string)

  datatype Gem = Gem(id: string, name: string, description: string, url: string, icon: string)

  datatype Tool = Tool(id: string, name: string, url: string, icon: string, color: string, isLocal: Option<bool>)

  datatype VideoKind = Video | Meet

  datatype TrainingVideo = TrainingVideo(
    id: string, title: string, url: string, duration: string, kind: VideoKind,
    transcriptionUrl: Option<string>, quizUrl: Option<string>)

  datatype TrainingModule = TrainingModule(
    id: string, title: string, description: string, videos: seq<TrainingVideo>, order: int)

  datatype CompanyConfig = CompanyConfig(title: string, subtitle: string)

  // ---------------------------------------------------------------------
  // Encoding as rows

  /** Adds `key: value` when the optional field is present. */
  function WithOpt(row: Row, key: string, v: Option<Json>): (r: Row)
    ensures key !in row ==> (key in r <==> v.Some?)
    ensures v.Some? ==> key in r && r[key] == v.value
    ensures forall k :: k in row && k != key ==> k in r && r[k] == row[k]
    ensures forall k :: k in r && k != key ==> k in row
  {
    match v
    case Some(x) => row[key := x]
    case None => row
  }

  function OptStr(o: Option<string>): Option<Json>
  {
    match o
    case Some(s) => Some(JStr(s))
    case None => None
  }

  function SkillJson(s: Skill): Json
  {
    JObj(map["name" := JStr(s.name), "level" := JNum(s.level)])
  }

  function UserRow(u: User): (r: Row)
    ensures IdOf(r) == Some(JStr(u.id))
    ensures "email" in r && r["email"] == JStr(u.email)
    ensures ("password" in r) == u.password.Some?
  {
    var base := map[
      "id" := JStr(u.id),
      "name" := JStr(u.name),
      "role" := JStr(RoleName(u.role)),
      "email" := JStr(u.email),
      "avatar" := JStr(u.avatar),
      "skills" := JArr(seq(|u.skills|, k requires 0 <= k < |u.skills| => SkillJson(u.skills[k]))),
      "projects" := StrArr(u.projects)];
    var withPass := WithOpt(base, "password", OptStr(u.password));
    WithOpt(withPass, "completedVideoIds",
      match u.completedVideoIds case Some(ids) => Some(StrArr(ids)) case None => None)
  }

  function LogJson(l: ProjectLog): Json
  {
    JObj(WithOpt(map["id" := JStr(l.id), "date" := JStr(l.date), "text" := JStr(l.text),
                     "author" := JStr(l.author)], "link", OptStr(l.link)))
  }

  function RepoKindName(k: RepoKind): string
  {
    match k
    case GitHub => "github"
    case Drive => "drive"
    case Other => "other"
  }

  function RepositoryJson(r: Repository): Json
  {
    JObj(map["id" := JStr(r.id), "alias" := JStr(r.alias), "url" := JStr(r.url),
             "type" := JStr(RepoKindName(r.kind))])
  }

  function ProjectRow(p: Project): (r: Row)
    ensures IdOf(r) == Some(JStr(p.id))
    ensures "status" in r && r["status"] == JStr(StatusName(p.status))
  {
    var fields := map[
      "name" := JStr(p.name),
      "client" := JStr(p.client),
      "leadId" := JStr(p.leadId),
      "teamIds" := StrArr(p.teamIds),
      "isOngoing" := JBool(p.isOngoing),
      "report" := JBool(p.report),
      "deadline" := JStr(p.deadline),
      "progress" := JNum(p.progress),
      "description" := JStr(p.description),
      "technologies" := StrArr(p.technologies),
      "year" := JNum(p.year),
      "logs" := JArr(seq(|p.logs|, k requires 0 <= k < |p.logs| => LogJson(p.logs[k]))),
      "repositories" := JArr(seq(|p.repositories|, k requires 0 <= k < |p.repositories| =>
                                   RepositoryJson(p.repositories[k])))];
    // the two fields the rest of the model reads, written last
    var base := fields + map["id" := JStr(p.id), "status" := JStr(StatusName(p.status))];
    WithOpt(WithOpt(base, "encargadoCliente", OptStr(p.encargadoCliente)),
            "startDate", OptStr(p.startDate))
  }

  function UsedIdRow(u: UsedId): (r: Row)
    ensures IdOf(r) == Some(JStr(u.id))
  {
    map["id" := JStr(u.id), "name" := JStr(u.name), "dateUsed" := JStr(u.dateUsed),
        "createdBy" := JStr(u.createdBy)]
  }

  function GemRow(g: Gem): (r: Row)
    ensures IdOf(r) == Some(JStr(g.id))
  {
    map["id" := JStr(g.id), "name" := JStr(g.name), "description" := JStr(g.description),
        "url" := JStr(g.url), "icon" := JStr(g.icon)]
  }

  function ToolRow(t: Tool): (r: Row)
    ensures IdOf(r) == Some(JStr(t.id))
  {
    WithOpt(map["id" := JStr(t.id), "name" := JStr(t.name), "url" := JStr(t.url),
                "icon" := JStr(t.icon), "color" := JStr(t.color)],
            "isLocal", match t.isLocal case Some(b) => Some(JBool(b)) case None => None)
  }

  function VideoJson(v: TrainingVideo): Json
  {
    var base := map["id" := JStr(v.id), "title" := JStr(v.title), "url" := JStr(v.url),
                    "duration" := JStr(v.duration),
                    "type" := JStr(if v.kind == Video then "video" else "meet")];
    JObj(WithOpt(WithOpt(base, "transcriptionUrl", OptStr(v.transcriptionUrl)),
                 "quizUrl", OptStr(v.quizUrl)))
  }

  function ModuleRow(m: TrainingModule): (r: Row)
    ensures IdOf(r) == Some(JStr(m.id))
  {
    map["id" := JStr(m.id), "title" := JStr(m.title), "description" := JStr(m.description),
        "videos" := JArr(seq(|m.videos|, k requires 0 <= k < |m.videos| => VideoJson(m.videos[k]))),
        "order" := JNum(m.order)]
  }
}
