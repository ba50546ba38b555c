/**
 * The project configuration as it crosses from the wizard to the generator:
 * the JSON body of the generate request.  A field the body does not carry is
 * `None`; the generator reads it as JavaScript's `undefined`.
 */
module Config {
  import opened Wrappers

  /** Connection settings of a database: only the url is present for every catalog entry. */
  datatype ConnectionFields = ConnectionFields(
    url: Option<string>,
    username: Option<string>,
    password: Option<string>,
    driver: Option<string>)

  /** One entry of the wizard's database catalog. */
  datatype DatabaseOption = DatabaseOption(
    name: string,
    logo: string,
    description: string,
    configFields: ConnectionFields)

  /** The request body: the wizard's form data with the dependency set turned into a list. */
  datatype ProjectData = ProjectData(
    groupId: Option<string>,
    artifactId: Option<string>,
    projectName: Option<string>,
    description: Option<string>,
    javaVersion: Option<string>,
    springBootVersion: Option<string>,
    packageType: Option<string>,
    dependencies: Option<seq<string>>,
    selectedDatabase: Option<DatabaseOption>,
    databaseConfig: Option<ConnectionFields>)

  /** A field as a template literal prints it: an absent field prints as "undefined". */
  function Interpolated(v: Option<string>): string
  {
    match v
    case Some(s) => s
    case None => "undefined"
  }

  /** JavaScript truthiness of an optional string: present and not empty. */
  predicate Truthy(v: Option<string>)
  {
    v.Some? && v.value != ""
  }
}
