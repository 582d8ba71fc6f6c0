/**
 * The seed collections (components/constants.ts) that the persistence layer
 * uses when nothing is stored yet and when it is reset to defaults.
 */
module Seeds {
  import opened Wrappers
  import opened Json
  import opened Types

  const InitialUsers: seq<User> := [
    User("u_root_aiwis", "AIWIS Master", MasterRoot, "aiwis", Some("123123"),
         "https://ui-avatars.com/api/?name=AIWIS+Root&background=000&color=fff&bold=true",
         [Skill("Omnipotencia", 100)], [], Some([])),
    User("u_soporte", "Soporte AIWIS", Admin, "soporte.aiwis@gmail.com", Some("123"),
         "https://ui-avatars.com/api/?name=AIWIS+Soporte&background=000000&color=fff",
         [Skill("System Architecture", 100), Skill("Mentoring", 100)], ["PROYECTO_001"], Some([])),
    User("u_estudiante1", "Estudiante Demo", Student, "alumno@aiwis.cl", Some("1234"),
         "https://ui-avatars.com/api/?name=Estudiante+Demo&background=random",
         [Skill("Aprendizaje", 10)], [], Some([]))
  ]

  const InitialProjects: seq<Project> := [
    Project("PROYECTO_001", "Migración Infraestructura Cloud", "Interno AIWIS", Some("Gerencia AIWIS"),
            "u_soporte", ["u_soporte"], EnCurso, true, true, "2025-06-30", Some("2025-01-15"), 45,
            "Proyecto de modernización de infraestructura y servicios core.",
            ["AWS", "Terraform", "React"], 2025, [], [])
  ]

  const InitialGems: seq<Gem> := [
    Gem("g1", "COTIZACIONES", "Asistente experto en la generación y análisis de cotizaciones.",
        "https://gemini.google.com/gem/6257c452aac9", "fa-calculator"),
    Gem("g2", "PIPELINES AZURE", "Especialista en crear pipelines de Azure y archivos JSON.",
        "https://gemini.google.com/gem/fa10051c004b", "fa-cloud")
  ]

  const InitialTools: seq<Tool> := [
    Tool("t1", "VS Code Web", "https://vscode.dev", "fa-code", "text-blue-500", None),
    Tool("t5", "Gemini", "https://gemini.google.com", "fa-gem", "text-purple-500", None)
  ]

  const InitialModules: seq<TrainingModule> := [
    TrainingModule("mod_1", "Módulo 1: Inducción AIWIS",
      "Bienvenida a la cultura y herramientas de la empresa.",
      [TrainingVideo("v1", "Visión y Misión", "https://www.youtube.com/watch?v=engvideo1", "10 min", Video, None, None),
       TrainingVideo("v2", "Uso del Portal", "https://meet.google.com/abc-defg-hij", "45 min", Meet, None, None)],
      1)
  ]

  /** A list of entities as stored rows, element by element. */
  function EncodeAll<T>(xs: seq<T>, encode: T -> Row): (rows: seq<Row>)
    ensures |rows| == |xs|
    ensures forall k :: 0 <= k < |xs| ==> rows[k] == encode(xs[k])
  {
    if |xs| == 0 then [] else [encode(xs[0])] + EncodeAll(xs[1..], encode)
  }

  // The same seeds as stored rows.

  const SeedUsers: seq<Row> := EncodeAll(InitialUsers, UserRow)
  const SeedProjects: seq<Row> := EncodeAll(InitialProjects, ProjectRow)
  const SeedGems: seq<Row> := EncodeAll(InitialGems, GemRow)
  const SeedTools: seq<Row> := EncodeAll(InitialTools, ToolRow)
  const SeedModules: seq<Row> := EncodeAll(InitialModules, ModuleRow)

  /** The seeded collections as one value (there are no seed used ids). */
  datatype SeedSet = SeedSet(users: seq<Row>, projects: seq<Row>, gems: seq<Row>, tools: seq<Row>, modules: seq<Row>)

  const InitialSeeds: SeedSet := SeedSet(SeedUsers, SeedProjects, SeedGems, SeedTools, SeedModules)
}
