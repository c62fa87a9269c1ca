/** The application data the state descriptors act on: the project object. */
module Projects {

  /** A value copy of the project's fields. */
  datatype ProjectData = ProjectData(name: string, author: string, eventsFunctions: seq<string>)

  /** The example project's initial contents. */
  const ExampleData := ProjectData("Foo", "bar", ["oneExtension", "secondExtension"])

  /** The mutable project object; descriptors change its fields in place. */
  class Project {
    var name: string
    var author: string
    var eventsFunctions: seq<string>

    constructor (d: ProjectData)
      ensures Data() == d
    {
      name, author, eventsFunctions := d.name, d.author, d.eventsFunctions;
    }

    /** The project as the example application first builds it. */
    constructor Example()
      ensures Data() == ExampleData
    {
      name, author := "Foo", "bar";
      eventsFunctions := ["oneExtension", "secondExtension"];
    }

    function Data(): ProjectData
      reads this
    {
      ProjectData(name, author, eventsFunctions)
    }
  }
}
