/**
 * The generate request handler: it renders the three project files from the
 * request body and packs them into one archive, or, if any step throws,
 * answers with a single generic error and no archive at all.  The archive is
 * modelled as a map from path to file text.
 */
module Generator {
  import opened Wrappers
  import opened Strings
  import opened Config
  import opened Templates
  import opened Properties

  const PomPath: string := "pom.xml"
  const PropertiesPath: string := "src/main/resources/application.properties"
  const ErrorStatus: nat := 500
  const ErrorBody: string := "{\"error\":\"Failed to generate project\"}"

  /** Where the entry point goes, below the package directory. */
  function MainClassPath(packagePath: string): string
  {
    "src/main/java/" + packagePath + "/Application.java"
  }

  /** `groupId.replace(/\./g, "/")`: the package directory of the group id. */
  function PackagePath(groupId: string): (r: string)
    ensures |r| == |groupId| && '.' !in r
    ensures forall i :: 0 <= i < |groupId| ==> r[i] == if groupId[i] == '.' then '/' else groupId[i]
  {
    ReplaceChar(groupId, '.', '/')
  }

  /** The package directory determines the group id back, when the group id has no '/' of its own. */
  lemma PackagePathInverse(groupId: string)
    requires '/' !in groupId
    ensures ReplaceChar(PackagePath(groupId), '/', '.') == groupId
  {
    ReplaceCharInverse(groupId, '.', '/');
  }

  /** A group id without dots is its own package directory. */
  lemma PackagePathWithoutDots(groupId: string)
    requires '.' !in groupId
    ensures PackagePath(groupId) == groupId
  {
    var r := PackagePath(groupId);
    forall i | 0 <= i < |r| ensures r[i] == groupId[i] {
      assert groupId[i] != '.';
    }
  }

  /** Appending a dotted segment appends a directory level. */
  lemma {:induction false} PackagePathAppendSegment(prefix: string, segment: string)
    requires '.' !in segment
    ensures PackagePath(prefix + "." + segment) == PackagePath(prefix) + "/" + segment
  {
    ReplaceCharAppend(prefix + ".", segment, '.', '/');
    ReplaceCharAppend(prefix, ".", '.', '/');
    assert PackagePath(".") == "/";
    PackagePathWithoutDots(segment);
  }

  /**
   * A three-part group id such as "com.example.demo" puts the entry point at
   * src/main/java/com/example/demo/Application.java.
   */
  lemma EntryPointPath(a: string, b: string, c: string)
    requires '.' !in a && '.' !in b && '.' !in c
    ensures MainClassPath(PackagePath(a + "." + b + "." + c)) ==
            "src/main/java/" + a + "/" + b + "/" + c + "/Application.java"
  {
    PackagePathWithoutDots(a);
    PackagePathAppendSegment(a, b);
    PackagePathAppendSegment(a + "." + b, c);
  }

  /** What the handler answers: the archive's files, or the generic server error. */
  datatype Response = Archive(files: map<string, string>) | Failure(status: nat, body: string)

  /**
   * A header value the response constructor accepts: its conversion to a
   * byte string rejects any character above U+00FF, and header validation
   * rejects NUL, CR and LF.
   */
  predicate HeaderValue(s: string)
  {
    forall i :: 0 <= i < |s| ==> s[i] <= '\U{FF}' && s[i] != '\0' && s[i] != '\r' && s[i] != '\n'
  }

  /** The `Content-Disposition` value of the archive response, named after the artifact id. */
  function ContentDisposition(d: ProjectData): string
  {
    "attachment; filename=\"" + Interpolated(d.artifactId) + ".zip\""
  }

  /** A header value is acceptable exactly when both of its halves are. */
  lemma HeaderValueAppend(s: string, t: string)
    ensures HeaderValue(s + t) <==> HeaderValue(s) && HeaderValue(t)
  {
    if HeaderValue(s) && HeaderValue(t) {
      forall i | 0 <= i < |s + t|
        ensures (s + t)[i] <= '\U{FF}' && (s + t)[i] != '\0' && (s + t)[i] != '\r' && (s + t)[i] != '\n'
      {
        if i >= |s| {
          assert (s + t)[i] == t[i - |s|];
        }
      }
    }
    if HeaderValue(s + t) {
      forall i | 0 <= i < |s|
        ensures s[i] <= '\U{FF}' && s[i] != '\0' && s[i] != '\r' && s[i] != '\n'
      {
        assert (s + t)[i] == s[i];
      }
      forall i | 0 <= i < |t|
        ensures t[i] <= '\U{FF}' && t[i] != '\0' && t[i] != '\r' && t[i] != '\n'
      {
        assert (s + t)[|s| + i] == t[i];
      }
    }
  }

  /**
   * The fixed parts of the `Content-Disposition` value are acceptable, so the
   * header is rejected exactly when the interpolated artifact id is.
   */
  lemma ContentDispositionCarriesArtifactId(d: ProjectData)
    ensures HeaderValue(ContentDisposition(d)) <==> HeaderValue(Interpolated(d.artifactId))
  {
    var front, back := "attachment; filename=\"", ".zip\"";
    assert HeaderValue(front);
    assert HeaderValue(back);
    HeaderValueAppend(front, Interpolated(d.artifactId));
    HeaderValueAppend(front + Interpolated(d.artifactId), back);
  }

  /** An absent artifact id names the file "undefined.zip", which is accepted. */
  lemma AbsentArtifactIdAccepted(d: ProjectData)
    requires d.artifactId.None?
    ensures HeaderValue(ContentDisposition(d))
  {
    ContentDispositionCarriesArtifactId(d);
    assert HeaderValue("undefined");
  }

  /** An artifact id with a character outside Latin-1, such as "demo\U{4E2D}", is refused. */
  lemma WideArtifactIdRefused(d: ProjectData)
    requires d.artifactId == Some("demo\U{4E2D}")
    ensures !HeaderValue(ContentDisposition(d))
  {
    ContentDispositionCarriesArtifactId(d);
    assert Interpolated(d.artifactId)[4] == '\U{4E2D}';
  }

  /**
   * The steps that throw: the reads `javaVersion.replace` and
   * `Array.from(dependencies)` in the descriptor, `groupId.replace` for the
   * package path and `databaseConfig.url` once a database is selected, and
   * the response constructor refusing the `Content-Disposition` value.
   */
  predicate Throws(d: ProjectData)
  {
    d.javaVersion.None? || d.dependencies.None? || d.groupId.None? ||
    (d.selectedDatabase.Some? && d.databaseConfig.None?) ||
    !HeaderValue(ContentDisposition(d))
  }

  /** The handler's answer to a request body. */
  function Generated(d: ProjectData): Response
  {
    var pom, properties := PomXml(d), PropertiesText(d);
    if pom.None? || d.groupId.None? || properties.None? || !HeaderValue(ContentDisposition(d)) then
      Failure(ErrorStatus, ErrorBody)
    else Archive(map[PomPath := pom.value,
                     MainClassPath(PackagePath(d.groupId.value)) := MainClass(d),
                     PropertiesPath := properties.value])
  }

  /** The three paths never collide, whatever the package directory. */
  lemma PathsDistinct(packagePath: string)
    ensures PomPath != PropertiesPath
    ensures MainClassPath(packagePath) != PomPath
    ensures MainClassPath(packagePath) != PropertiesPath
  {
    var main := MainClassPath(packagePath);
    assert |PomPath| < |PropertiesPath|;
    assert |PomPath| < |main|;
    assert main[9] == 'j';
    assert PropertiesPath[9] == 'r';
  }

  /**
   * All or nothing: the answer is the generic error exactly when one of the
   * throwing steps fails, and otherwise an archive of exactly three files at
   * the fixed paths, holding the three renderings.
   */
  lemma GeneratedAllOrNothing(d: ProjectData)
    ensures Generated(d).Failure? <==> Throws(d)
    ensures Generated(d).Failure? ==> Generated(d) == Failure(500, "{\"error\":\"Failed to generate project\"}")
    ensures Generated(d).Archive? ==>
      var files, main := Generated(d).files, MainClassPath(PackagePath(d.groupId.value));
      files.Keys == {"pom.xml", main, "src/main/resources/application.properties"} &&
      |files| == 3 &&
      files["pom.xml"] == PomXml(d).value &&
      files[main] == MainClass(d) &&
      files["src/main/resources/application.properties"] == PropertiesText(d).value
  {
    GeneratedFailsOnThrow(d);
    if !Throws(d) {
      GeneratedThreeFiles(d);
    }
  }

  /** The failure half: the generic error exactly when a throwing step fails. */
  lemma GeneratedFailsOnThrow(d: ProjectData)
    ensures Generated(d).Failure? <==> Throws(d)
    ensures Generated(d).Failure? ==> Generated(d) == Failure(ErrorStatus, ErrorBody)
  {
  }

  /** The success half: three files at three distinct paths. */
  lemma GeneratedThreeFiles(d: ProjectData)
    requires !Throws(d)
    ensures Generated(d).Archive?
    ensures var files, main := Generated(d).files, MainClassPath(PackagePath(d.groupId.value));
      files.Keys == {PomPath, main, PropertiesPath} &&
      |files| == 3 &&
      files[PomPath] == PomXml(d).value &&
      files[main] == MainClass(d) &&
      files[PropertiesPath] == PropertiesText(d).value
  {
    var main := MainClassPath(PackagePath(d.groupId.value));
    PathsDistinct(PackagePath(d.groupId.value));
    assert |{PomPath, main, PropertiesPath}| == 3;
  }

  /** The package type is collected by the wizard but read by none of the renderers. */
  lemma PackageTypeIgnored(d: ProjectData, packageType: Option<string>)
    ensures Generated(d.(packageType := packageType)) == Generated(d)
  {
    var e := d.(packageType := packageType);
    PomIgnoresOtherFields(d, e);
    MainClassOnlyReadsGroupId(d, e);
    assert PropertyLines(e) == PropertyLines(d);
  }

  /** The `zip` object of the handler, reduced to the files added to it. */
  class ZipArchive {
    var files: map<string, string>

    constructor ()
      ensures files == map[]
    {
      files := map[];
    }

    /** `zip.file(path, content)`: add a file, replacing one at the same path. */
    method File(path: string, content: string)
      modifies this
      ensures files == old(files)[path := content]
    {
      files := files[path := content];
    }
  }

  /**
   * The handler's `try` block: render, add each file to the archive as soon
   * as it is rendered, and drop the archive if a later step throws, up to
   * building the response with the archive's `Content-Disposition` header.
   */
  method Generate(d: ProjectData) returns (response: Response)
    ensures response == Generated(d)
  {
    var zip := new ZipArchive();
    var pomXml := PomXml(d);
    if pomXml.None? {
      return Failure(ErrorStatus, ErrorBody);
    }
    zip.File(PomPath, pomXml.value);
    var mainClass := MainClass(d);
    if d.groupId.None? {
      return Failure(ErrorStatus, ErrorBody);
    }
    var packagePath := PackagePath(d.groupId.value);
    zip.File(MainClassPath(packagePath), mainClass);
    var appProperties := RenderProperties(d);
    if appProperties.None? {
      return Failure(ErrorStatus, ErrorBody);
    }
    zip.File(PropertiesPath, appProperties.value);
    if !HeaderValue(ContentDisposition(d)) {
      return Failure(ErrorStatus, ErrorBody);
    }
    response := Archive(zip.files);
  }
}
