/**
 * The generator wizard page: a step counter over four steps and the form
 * data the steps fill in, changed only through the page's handlers.  The
 * dependency set is a JavaScript `Set`, which keeps insertion order; it is
 * modelled as a sequence without repetitions.
 */
module Wizard {
  import opened Wrappers
  import opened Config
  import Generator
  import Properties

  // ---- The database catalog

  const PostgreSql: DatabaseOption := DatabaseOption(
    "PostgreSQL",
    "https://www.postgresql.org/media/img/about/press/elephant.png",
    "Robust, open source relational database",
    ConnectionFields(Some("jdbc:postgresql://localhost:5432/dbname"), Some("postgres"), Some("password"),
                     Some("org.postgresql.Driver")))

  const MySql: DatabaseOption := DatabaseOption(
    "MySQL",
    "https://labs.mysql.com/common/logos/mysql-logo.svg",
    "Popular open source relational database",
    ConnectionFields(Some("jdbc:mysql://localhost:3306/dbname"), Some("root"), Some("password"),
                     Some("com.mysql.cj.jdbc.Driver")))

  const MongoDb: DatabaseOption := DatabaseOption(
    "MongoDB",
    "https://www.mongodb.com/assets/images/global/leaf.png",
    "NoSQL document oriented database",
    ConnectionFields(Some("mongodb://localhost:27017/dbname"), None, None, None))

  const H2: DatabaseOption := DatabaseOption(
    "H2",
    "https://www.h2database.com/html/images/h2-logo-2.png",
    "Lightweight in-memory database",
    ConnectionFields(Some("jdbc:h2:mem:testdb"), Some("sa"), Some(""), Some("org.h2.Driver")))

  const Databases: seq<DatabaseOption> := [PostgreSql, MySql, MongoDb, H2]

  /** Four entries with distinct names, each with a url; MongoDB has nothing else, H2 an empty password. */
  lemma CatalogShape()
    ensures |Databases| == 4
    ensures forall i, j :: 0 <= i < j < |Databases| ==> Databases[i].name != Databases[j].name
    ensures forall i :: 0 <= i < |Databases| ==> Databases[i].configFields.url.Some?
    ensures MongoDb.configFields == ConnectionFields(Some("mongodb://localhost:27017/dbname"), None, None, None)
    ensures H2.configFields.password == Some("")
  {
    assert |"MongoDB"| != |"PostgreSQL"| && |"MongoDB"| != |"H2"| && |"PostgreSQL"| != |"H2"|;
    assert "MySQL" != "MongoDB" by { assert "MySQL"[1] != "MongoDB"[1]; }
    assert "MySQL" != "PostgreSQL" && "MySQL" != "H2";
  }

  // ---- The form data

  const StepCount: nat := 4
  const LastStep: nat := StepCount - 1

  /** The page's form state. */
  datatype FormData = FormData(
    groupId: string,
    artifactId: string,
    projectName: string,
    description: string,
    javaVersion: string,
    springBootVersion: string,
    packageType: string,
    dependencies: seq<string>,
    selectedDatabase: Option<DatabaseOption>,
    databaseConfig: ConnectionFields)

  const InitialFormData: FormData := FormData(
    "com.example", "demo", "", "", "Java 21", "3.1.5", "JAR",
    ["Spring Web"],
    None,
    ConnectionFields(Some(""), Some(""), Some(""), Some("")))

  /** The text inputs of the project step. */
  datatype InputField =
    | GroupIdField | ArtifactIdField | ProjectNameField | DescriptionField
    | JavaVersionField | SpringBootVersionField | PackageTypeField

  /** The inputs of the database step. */
  datatype ConfigField = UrlField | UsernameField | PasswordField | DriverField

  /** The value of a project-step input. */
  function Input(f: FormData, field: InputField): string
  {
    match field
    case GroupIdField => f.groupId
    case ArtifactIdField => f.artifactId
    case ProjectNameField => f.projectName
    case DescriptionField => f.description
    case JavaVersionField => f.javaVersion
    case SpringBootVersionField => f.springBootVersion
    case PackageTypeField => f.packageType
  }

  /** `{ ...prev, [field]: value }`. */
  function WithInput(f: FormData, field: InputField, value: string): FormData
  {
    match field
    case GroupIdField => f.(groupId := value)
    case ArtifactIdField => f.(artifactId := value)
    case ProjectNameField => f.(projectName := value)
    case DescriptionField => f.(description := value)
    case JavaVersionField => f.(javaVersion := value)
    case SpringBootVersionField => f.(springBootVersion := value)
    case PackageTypeField => f.(packageType := value)
  }

  /** An input change sets that input and leaves every other input and all other state as it was. */
  lemma InputChangeFrame(f: FormData, field: InputField, value: string)
    ensures forall g: InputField :: Input(WithInput(f, field, value), g) == if g == field then value else Input(f, g)
    ensures var e := WithInput(f, field, value);
      e.dependencies == f.dependencies && e.selectedDatabase == f.selectedDatabase &&
      e.databaseConfig == f.databaseConfig
  {
  }

  /** The value of a database-step input. */
  function ConfigValue(c: ConnectionFields, field: ConfigField): Option<string>
  {
    match field
    case UrlField => c.url
    case UsernameField => c.username
    case PasswordField => c.password
    case DriverField => c.driver
  }

  /** `{ ...prev, databaseConfig: { ...prev.databaseConfig, [field]: value } }`. */
  function WithConfig(f: FormData, field: ConfigField, value: string): FormData
  {
    var c := f.databaseConfig;
    f.(databaseConfig := match field
       case UrlField => c.(url := Some(value))
       case UsernameField => c.(username := Some(value))
       case PasswordField => c.(password := Some(value))
       case DriverField => c.(driver := Some(value)))
  }

  /** A database-setting change sets that setting only; the project inputs and the selections stay. */
  lemma ConfigChangeFrame(f: FormData, field: ConfigField, value: string)
    ensures var c := WithConfig(f, field, value).databaseConfig;
      forall g: ConfigField :: ConfigValue(c, g) == (if g == field then Some(value) else ConfigValue(f.databaseConfig, g))
    ensures var e := WithConfig(f, field, value);
      e == f.(databaseConfig := e.databaseConfig)
  {
  }

  // ---- The dependency set, in insertion order

  predicate Distinct(s: seq<string>)
  {
    forall i, j :: 0 <= i < j < |s| ==> s[i] != s[j]
  }

  /** `Set.prototype.add`: append when absent, otherwise nothing changes. */
  function SetAdd(s: seq<string>, x: string): (r: seq<string>)
    ensures forall y :: y in r <==> y in s || y == x
    ensures s <= r
    ensures Distinct(s) ==> Distinct(r)
  {
    if x in s then s else s + [x]
  }

  /** `Set.prototype.delete`: remove the element, keeping the order of the rest. */
  function SetDelete(s: seq<string>, x: string): (r: seq<string>)
    ensures forall y :: y in r <==> y in s && y != x
    ensures Distinct(s) ==> Distinct(r)
    ensures x !in s ==> r == s
  {
    if s == [] then []
    else if s[0] == x then SetDelete(s[1..], x)
    else
      var rest := SetDelete(s[1..], x);
      assert forall y :: y in [s[0]] + rest ==> y in s;
      assert Distinct(s) ==> Distinct(s[1..]) && s[0] !in s[1..];
      [s[0]] + rest
  }

  /**
   * Deleting a member cuts it out where it stands: the members before it and
   * the members after it keep their order.
   */
  lemma {:induction false} SetDeleteKeepsOrder(s: seq<string>, x: string, i: nat)
    requires Distinct(s) && i < |s| && s[i] == x
    ensures SetDelete(s, x) == s[..i] + s[i + 1..]
  {
    var tail := s[1..];
    DistinctTail(s);
    if i == 0 {
      assert SetDelete(s, x) == SetDelete(tail, x);
    } else {
      SetDeleteKeepsOrder(tail, x, i - 1);
      assert SetDelete(s, x) == [s[0]] + SetDelete(tail, x);
      assert s[..i] == [s[0]] + tail[..i - 1];
      assert s[i + 1..] == tail[i..];
    }
  }

  /** The members after the first are distinct and do not repeat it. */
  lemma DistinctTail(s: seq<string>)
    requires Distinct(s) && s != []
    ensures Distinct(s[1..]) && s[0] !in s[1..]
  {
    var tail := s[1..];
    forall i, j | 0 <= i < j < |tail| ensures tail[i] != tail[j] {
      assert tail[i] == s[i + 1] && tail[j] == s[j + 1];
    }
    forall j | 0 <= j < |tail| ensures tail[j] != s[0] {
      assert tail[j] == s[j + 1];
    }
  }

  /** Deleting the last element of a set gives the elements before it. */
  lemma {:induction false} SetDeleteLast(s: seq<string>, x: string)
    requires Distinct(s + [x])
    ensures SetDelete(s + [x], x) == s
  {
    if s == [] {
      assert [x][1..] == [];
    } else {
      assert (s + [x])[1..] == s[1..] + [x];
      assert Distinct(s[1..] + [x]) by {
        forall i, j | 0 <= i < j < |s[1..] + [x]| ensures (s[1..] + [x])[i] != (s[1..] + [x])[j] {
          assert (s[1..] + [x])[i] == (s + [x])[i + 1] && (s[1..] + [x])[j] == (s + [x])[j + 1];
        }
      }
      assert (s + [x])[0] != x by {
        assert (s + [x])[|s|] == x;
      }
      SetDeleteLast(s[1..], x);
      assert s == [s[0]] + s[1..];
    }
  }

  /** The dependency set after a checkbox toggle. */
  function Toggled(s: seq<string>, x: string): (r: seq<string>)
    ensures forall y :: y in r <==> (y in s) != (y == x)
    ensures Distinct(s) ==> Distinct(r)
  {
    if x in s then SetDelete(s, x) else SetAdd(s, x)
  }

  /** Toggling twice gives back the same members. */
  lemma ToggleTwiceSameMembers(s: seq<string>, x: string)
    ensures forall y :: y in Toggled(Toggled(s, x), x) <==> y in s
  {
  }

  /**
   * Toggling twice gives back the same sequence, and so the same dependency
   * order in the descriptor, exactly when the name was absent or was the last
   * one added: a present name is deleted and then re-added at the end.
   */
  lemma ToggleTwiceOrder(s: seq<string>, x: string)
    requires Distinct(s)
    ensures Toggled(Toggled(s, x), x) == s <==> x !in s || s[|s| - 1] == x
  {
    if x !in s {
      assert Toggled(Toggled(s, x), x) == SetDelete(s + [x], x);
      SetDeleteLast(s, x);
    } else {
      var once := SetDelete(s, x);
      assert x !in once;
      var twice := once + [x];
      assert Toggled(Toggled(s, x), x) == twice;
      if s[|s| - 1] == x {
        var front := s[..|s| - 1];
        assert s == front + [x];
        SetDeleteLast(front, x);
      } else {
        assert twice[|twice| - 1] == x;
        assert |twice| == |s| ==> twice[|s| - 1] != s[|s| - 1];
      }
    }
  }

  // ---- Choosing a database

  /** The synthetic dependency a database selection adds. */
  function DriverName(db: DatabaseOption): string
  {
    db.name + " Driver"
  }

  /** The form after `handleDatabaseSelect(db)`. */
  function Selected(f: FormData, db: DatabaseOption): FormData
  {
    f.(selectedDatabase := Some(db),
       databaseConfig := db.configFields,
       dependencies := SetAdd(f.dependencies, DriverName(db)))
  }

  /**
   * Selecting a database records it, copies its default settings and adds its
   * driver; no dependency is removed and the earlier order is kept.
   */
  lemma SelectAddsDriverOnly(f: FormData, db: DatabaseOption)
    ensures var e := Selected(f, db);
      e.selectedDatabase == Some(db) && e.databaseConfig == db.configFields &&
      f.dependencies <= e.dependencies &&
      (forall y :: y in e.dependencies <==> y in f.dependencies || y == DriverName(db)) &&
      e == f.(selectedDatabase := e.selectedDatabase, databaseConfig := e.databaseConfig,
              dependencies := e.dependencies)
  {
  }

  /** Selecting the same database twice is selecting it once. */
  lemma SelectIdempotent(f: FormData, db: DatabaseOption)
    ensures Selected(Selected(f, db), db) == Selected(f, db)
  {
  }

  /** Switching to another database keeps the first one's driver. */
  lemma SwitchKeepsEarlierDriver(f: FormData, first: DatabaseOption, second: DatabaseOption)
    ensures DriverName(first) in Selected(Selected(f, first), second).dependencies
    ensures Selected(Selected(f, first), second).databaseConfig == second.configFields
  {
  }

  // ---- Submitting

  /** `{ ...formData, dependencies: Array.from(formData.dependencies) }`, as the server receives it. */
  function Payload(f: FormData): ProjectData
  {
    ProjectData(Some(f.groupId), Some(f.artifactId), Some(f.projectName), Some(f.description),
                Some(f.javaVersion), Some(f.springBootVersion), Some(f.packageType),
                Some(f.dependencies), f.selectedDatabase, Some(f.databaseConfig))
  }

  /** The name the downloaded archive is saved under. */
  function DownloadName(f: FormData): string
  {
    f.artifactId + ".zip"
  }

  /** What the last step hands to the network: the request body and the download name. */
  datatype Submission = Submission(payload: ProjectData, downloadName: string)

  /**
   * The wizard always sends every field the renderers read, so its request
   * takes the generator's error path only when the artifact id cannot be
   * carried in the download's `Content-Disposition` header.
   */
  lemma WizardPayloadGenerates(f: FormData)
    ensures !Generator.Throws(Payload(f)) <==> Generator.HeaderValue(f.artifactId)
    ensures Generator.Generated(Payload(f)).Archive? <==> Generator.HeaderValue(f.artifactId)
  {
    Generator.ContentDispositionCarriesArtifactId(Payload(f));
    Generator.GeneratedAllOrNothing(Payload(f));
  }

  /**
   * Selecting MongoDB without touching its settings renders the name line and
   * the url line only: its catalog entry has no credentials and no driver.
   */
  lemma MongoDbRendersOnlyUrl(f: FormData)
    ensures var d := Payload(Selected(f, MongoDb));
      Properties.PropertiesText(d) ==
        Some(Properties.NameLine(d) + Properties.DatabaseLines("mongodb://localhost:27017/dbname")) &&
      Properties.Keys(Properties.PropertyLines(d).value) == [Properties.NameKey, Properties.UrlKey]
  {
    var d := Payload(Selected(f, MongoDb));
    var c := d.databaseConfig.value;
    assert c == MongoDb.configFields;
    Properties.DatabaseSectionText(d);
    Properties.PropertyKeys(d);
    DropEmptyTail(Properties.NameLine(d), Properties.DatabaseLines(Interpolated(c.url)));
  }

  /**
   * Selecting H2 without touching its settings renders the url, the user name
   * and the driver, but no password line: its password is the empty string.
   */
  lemma H2RendersNoPassword(f: FormData)
    ensures var d := Payload(Selected(f, H2));
      Properties.PropertiesText(d) ==
        Some(Properties.NameLine(d) + Properties.DatabaseLines("jdbc:h2:mem:testdb") +
             (Properties.UsernameKey + "=" + "sa" + "\n") +
             (Properties.DriverKey + "=" + "org.h2.Driver" + "\n")) &&
      Properties.Keys(Properties.PropertyLines(d).value) ==
        [Properties.NameKey, Properties.UrlKey, Properties.UsernameKey, Properties.DriverKey]
  {
    var d := Payload(Selected(f, H2));
    var c := d.databaseConfig.value;
    assert c == H2.configFields;
    assert Truthy(c.username) && !Truthy(c.password) && Truthy(c.driver);
    Properties.DatabaseSectionText(d);
    Properties.PropertyKeys(d);
    DropEmptyFourth(Properties.NameLine(d), Properties.DatabaseLines(Interpolated(c.url)),
                    Properties.OptionalLine(Properties.UsernameKey, c.username),
                    Properties.OptionalLine(Properties.DriverKey, c.driver));
  }

  /** Regrouping only: a proof step stated over plain strings to keep the end-to-end lemmas cheap. */
  lemma DropEmptyTail(a: string, b: string)
    ensures a + b + "" + "" + "" == a + b
  {
  }

  /** Regrouping only: a proof step stated over plain strings to keep the end-to-end lemmas cheap. */
  lemma DropEmptyFourth(a: string, b: string, c: string, e: string)
    ensures a + b + c + "" + e == a + b + c + e
  {
  }

  /** The wizard page: its step counter and its form data. */
  class GeneratorPage {
    var currentStep: nat
    var formData: FormData

    ghost predicate Valid()
      reads this
    {
      currentStep <= LastStep && Distinct(formData.dependencies)
    }

    /** The state the page mounts with. */
    constructor ()
      ensures Valid()
      ensures currentStep == 0 && formData == InitialFormData
    {
      currentStep := 0;
      formData := InitialFormData;
    }

    method HandleInputChange(field: InputField, value: string)
      requires Valid()
      modifies this
      ensures Valid()
      ensures currentStep == old(currentStep)
      ensures formData == WithInput(old(formData), field, value)
    {
      formData := WithInput(formData, field, value);
    }

    method HandleDatabaseSelect(db: DatabaseOption)
      requires Valid()
      modifies this
      ensures Valid()
      ensures currentStep == old(currentStep)
      ensures formData == Selected(old(formData), db)
    {
      formData := formData.(selectedDatabase := Some(db),
                            databaseConfig := db.configFields,
                            dependencies := SetAdd(formData.dependencies, DriverName(db)));
    }

    method HandleDatabaseConfigChange(field: ConfigField, value: string)
      requires Valid()
      modifies this
      ensures Valid()
      ensures currentStep == old(currentStep)
      ensures formData == WithConfig(old(formData), field, value)
    {
      formData := WithConfig(formData, field, value);
    }

    /** Copies the set, adds or deletes the name in the copy, and stores the copy. */
    method HandleDependencyToggle(dependency: string)
      requires Valid()
      modifies this
      ensures Valid()
      ensures currentStep == old(currentStep)
      ensures formData == old(formData).(dependencies := Toggled(old(formData.dependencies), dependency))
      ensures forall y :: y in formData.dependencies <==> (y in old(formData.dependencies)) != (y == dependency)
    {
      var newDeps := formData.dependencies;
      if dependency in newDeps {
        newDeps := SetDelete(newDeps, dependency);
      } else {
        newDeps := newDeps + [dependency];
      }
      formData := formData.(dependencies := newDeps);
    }

    /** The Previous button: `Math.max(0, currentStep - 1)`. */
    method Previous()
      requires Valid()
      modifies this
      ensures Valid()
      ensures formData == old(formData)
      ensures currentStep == if old(currentStep) == 0 then 0 else old(currentStep) - 1
    {
      var previous := currentStep - 1;
      currentStep := if previous < 0 then 0 else previous;
    }

    /**
     * The Next button: on the last step it submits the form and stays;
     * otherwise it moves one step on, never past the last.
     */
    method Next() returns (submission: Option<Submission>)
      requires Valid()
      modifies this
      ensures Valid()
      ensures formData == old(formData)
      ensures old(currentStep) == LastStep ==>
        currentStep == LastStep && submission == Some(Submission(Payload(formData), DownloadName(formData)))
      ensures old(currentStep) < LastStep ==> currentStep == old(currentStep) + 1 && submission.None?
      ensures submission.Some? ==>
        (Generator.Generated(submission.value.payload).Archive? <==> Generator.HeaderValue(formData.artifactId))
    {
      if currentStep == LastStep {
        submission := Some(Submission(Payload(formData), DownloadName(formData)));
        WizardPayloadGenerates(formData);
      } else {
        var next := currentStep + 1;
        currentStep := if next < LastStep then next else LastStep;
        submission := None;
      }
    }
  }
}
