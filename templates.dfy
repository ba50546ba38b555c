/**
 * The two template literals of the generator: the Maven build descriptor
 * (`generatePomXml`) and the application entry point (`generateMainClass`).
 * A template literal is a sequence of literal text and substitutions; the
 * substituted values are inserted as they are, without any escaping.
 */
module Templates {
  import opened Wrappers
  import opened Strings
  import opened Config
  import opened Manifest

  /** The substitutions the two templates make. */
  datatype Slot =
    | GroupIdSlot
    | ArtifactIdSlot
    | ProjectNameSlot
    | DescriptionSlot
    | BootVersionSlot
    | JavaVersionSlot
    | DependenciesSlot

  /** A piece of a template literal: literal text, or a `${...}` substitution. */
  datatype Segment = Text(text: string) | Hole(slot: Slot)

  /** The text one piece contributes: its literal text, or the value bound to its substitution. */
  function SegmentText(seg: Segment, values: map<Slot, string>): string
  {
    match seg
    case Text(s) => s
    case Hole(slot) => if slot in values then values[slot] else ""
  }

  /** The text of a template with every substitution filled in from `values`. */
  function Render(t: seq<Segment>, values: map<Slot, string>): string
  {
    if t == [] then "" else SegmentText(t[0], values) + Render(t[1..], values)
  }

  /** Rendering is piecewise: a template cut in two renders as its two halves. */
  lemma {:induction false} RenderAppend(a: seq<Segment>, b: seq<Segment>, values: map<Slot, string>)
    ensures Render(a + b, values) == Render(a, values) + Render(b, values)
  {
    if a != [] {
      assert (a + b)[1..] == a[1..] + b;
      assert (a + b)[0] == a[0];
      RenderAppend(a[1..], b, values);
    } else {
      assert a + b == b;
    }
  }

  /** A single slot between two texts renders as the value between them. */
  lemma RenderAroundHole(before: string, slot: Slot, after: string, values: map<Slot, string>)
    requires slot in values
    ensures Render([Text(before), Hole(slot), Text(after)], values) == before + (values[slot] + after)
  {
    var t := [Text(before), Hole(slot), Text(after)];
    assert t[1..][1..] == [Text(after)];
    assert t[1..][1..][1..] == [];
    assert Render(t[1..][1..], values) == after + "";
    assert after + "" == after;
    assert Render(t[1..], values) == values[slot] + after;
  }

  /** A substitution between its opening and closing text. */
  function Tagged(open: string, slot: Slot, close: string): seq<Segment>
  {
    [Text(open), Hole(slot), Text(close)]
  }

  /** A substitution between its tags, then literal text, then the rest of a template. */
  lemma RenderTaggedThen(open: string, slot: Slot, close: string, between: string, rest: seq<Segment>,
                         values: map<Slot, string>)
    requires slot in values
    ensures Render(Tagged(open, slot, close) + ([Text(between)] + rest), values) ==
            open + values[slot] + close + between + Render(rest, values)
  {
    RenderAppend(Tagged(open, slot, close), [Text(between)] + rest, values);
    RenderAppend([Text(between)], rest, values);
    RenderAroundHole(open, slot, close, values);
    assert [Text(between)][1..] == [];
    assert Render([Text(between)], values) == between + "";
  }

  /** No escaping: a substitution renders as its value, verbatim, between the text around it. */
  lemma RenderTagged(open: string, slot: Slot, close: string, values: map<Slot, string>)
    requires slot in values
    ensures Contains(Render(Tagged(open, slot, close), values), open + values[slot] + close)
  {
    var w := open + values[slot] + close;
    RenderAroundHole(open, slot, close, values);
    assert Render(Tagged(open, slot, close), values) == w;
    assert OccursAt(w, w, 0);
  }

  /** What the rendering of either part of a template contains, the rendering of the whole contains. */
  lemma ContainsRendered(a: seq<Segment>, b: seq<Segment>, values: map<Slot, string>, w: string)
    requires Contains(Render(a, values), w) || Contains(Render(b, values), w)
    ensures Contains(Render(a + b, values), w)
  {
    RenderAppend(a, b, values);
    if Contains(Render(a, values), w) {
      ContainsWithin("", Render(a, values), Render(b, values), w);
    } else {
      ContainsWithin(Render(a, values), Render(b, values), "", w);
    }
  }

  // ---- The build descriptor, `generatePomXml`

  const PomPrologue: string :=
    "<?xml version=\"1.0\" encoding=\"UTF-8\"?>\n" +
    "<project xmlns=\"http://maven.apache.org/POM/4.0.0\"\n" +
    "         xmlns:xsi=\"http://www.w3.org/2001/XMLSchema-instance\"\n" +
    "         xsi:schemaLocation=\"http://maven.apache.org/POM/4.0.0 https://maven.apache.org/xsd/maven-4.0.0.xsd\">\n" +
    "    <modelVersion>4.0.0</modelVersion>\n" +
    "    \n" +
    "    "

  const ParentPrologue: string := "\n    \n    " + ParentStart

  /** The `<parent>` element up to its version: Spring Boot's starter parent. */
  const ParentStart: string :=
    "<parent>\n" +
    "        <groupId>org.springframework.boot</groupId>\n" +
    "        <artifactId>spring-boot-starter-parent</artifactId>\n" +
    "        "

  const PropertiesPrologue: string :=
    "\n" +
    "        <relativePath/>\n" +
    "    </parent>\n" +
    "    \n" +
    "    <properties>\n" +
    "        "

  const DependenciesPrologue: string :=
    "\n" +
    "    </properties>\n" +
    "    \n" +
    "    "

  const BuildSection: string :=
    "\n" +
    "    \n" +
    "    <build>\n" +
    "        <plugins>\n" +
    "            <plugin>\n" +
    "                <groupId>org.springframework.boot</groupId>\n" +
    "                <artifactId>spring-boot-maven-plugin</artifactId>\n" +
    "            </plugin>\n" +
    "        </plugins>\n" +
    "    </build>\n" +
    "</project>"

  const VersionLine: string := "\n    <version>0.0.1-SNAPSHOT</version>" + "\n    "

  /**
   * The `pom.xml` template literal, read from each substitution to the end:
   * `PomFromGroupId` is the template from the group id on, and so forth.
   */
  const PomTemplate: seq<Segment> := [Text(PomPrologue)] + PomFromGroupId
  const PomFromGroupId: seq<Segment> :=
    Tagged("<groupId>", GroupIdSlot, "</groupId>") + ([Text("\n    ")] + PomFromArtifactId)
  const PomFromArtifactId: seq<Segment> :=
    Tagged("<artifactId>", ArtifactIdSlot, "</artifactId>") + ([Text(VersionLine)] + PomFromName)
  const PomFromName: seq<Segment> :=
    Tagged("<name>", ProjectNameSlot, "</name>") + ([Text("\n    ")] + PomFromDescription)
  const PomFromDescription: seq<Segment> :=
    Tagged("<description>", DescriptionSlot, "</description>") + ([Text(ParentPrologue)] + PomFromBootVersion)
  const PomFromBootVersion: seq<Segment> :=
    Tagged("<version>", BootVersionSlot, "</version>") + ([Text(PropertiesPrologue)] + PomFromJavaVersion)
  const PomFromJavaVersion: seq<Segment> :=
    Tagged("<java.version>", JavaVersionSlot, "</java.version>") + ([Text(DependenciesPrologue)] + PomFromDependencies)
  const PomFromDependencies: seq<Segment> :=
    Tagged("<dependencies>\n        ", DependenciesSlot, "\n    </dependencies>") + [Text(BuildSection)]

  /** `javaVersion.replace('Java ', '')`: the first "Java " removed from the label. */
  function JavaVersionNumber(versionLabel: string): string
  {
    ReplaceFirst(versionLabel, "Java ", "")
  }

  /**
   * `generatePomXml`.  It throws (`None`) when `javaVersion` is absent (the
   * `replace` call) or `dependencies` is absent (`Array.from`); every other
   * absent field is printed as "undefined".
   */
  function PomXml(d: ProjectData): (r: Option<string>)
    ensures r.Some? <==> d.javaVersion.Some? && d.dependencies.Some?
  {
    if d.javaVersion.None? || d.dependencies.None? then None
    else
      Some(Render(PomTemplate, PomValuesOf(d)))
  }

  /** The values `generatePomXml` substitutes for `d`, once both reads that can throw have succeeded. */
  function PomValuesOf(d: ProjectData): map<Slot, string>
    requires d.javaVersion.Some? && d.dependencies.Some?
  {
    map[GroupIdSlot := Interpolated(d.groupId),
        ArtifactIdSlot := Interpolated(d.artifactId),
        ProjectNameSlot := Interpolated(d.projectName),
        DescriptionSlot := Interpolated(d.description),
        BootVersionSlot := Interpolated(d.springBootVersion),
        JavaVersionSlot := JavaVersionNumber(d.javaVersion.value),
        DependenciesSlot := DependenciesXml(d.dependencies.value)]
  }

  /** Each slot of the descriptor holds the value `generatePomXml` interpolates there. */
  lemma PomValuesOfSlots(d: ProjectData)
    requires d.javaVersion.Some? && d.dependencies.Some?
    ensures PomComplete(PomValuesOf(d))
    ensures PomXml(d).value == Render(PomTemplate, PomValuesOf(d))
    ensures var v := PomValuesOf(d);
      v[GroupIdSlot] == Interpolated(d.groupId) && v[ArtifactIdSlot] == Interpolated(d.artifactId) &&
      v[ProjectNameSlot] == Interpolated(d.projectName) && v[DescriptionSlot] == Interpolated(d.description) &&
      v[BootVersionSlot] == Interpolated(d.springBootVersion) &&
      v[JavaVersionSlot] == JavaVersionNumber(d.javaVersion.value) &&
      v[DependenciesSlot] == DependenciesXml(d.dependencies.value)
  {
  }

  /** The slots of the descriptor, all given a value. */
  predicate PomComplete(values: map<Slot, string>)
  {
    GroupIdSlot in values && ArtifactIdSlot in values && ProjectNameSlot in values &&
    DescriptionSlot in values && BootVersionSlot in values && JavaVersionSlot in values &&
    DependenciesSlot in values
  }

  // Each step below carries an occurrence from one tail of the descriptor to
  // the tail that starts one substitution earlier, and so up to the whole.

  lemma InPomFromGroupId(values: map<Slot, string>, w: string)
    requires Contains(Render(PomFromGroupId, values), w)
    ensures Contains(Render(PomTemplate, values), w)
  {
    ContainsRendered([Text(PomPrologue)], PomFromGroupId, values, w);
  }

  lemma InPomFromArtifactId(values: map<Slot, string>, w: string)
    requires Contains(Render(PomFromArtifactId, values), w)
    ensures Contains(Render(PomTemplate, values), w)
  {
    ContainsRendered([Text("\n    ")], PomFromArtifactId, values, w);
    ContainsRendered(Tagged("<groupId>", GroupIdSlot, "</groupId>"), [Text("\n    ")] + PomFromArtifactId, values, w);
    InPomFromGroupId(values, w);
  }

  lemma InPomFromName(values: map<Slot, string>, w: string)
    requires Contains(Render(PomFromName, values), w)
    ensures Contains(Render(PomTemplate, values), w)
  {
    ContainsRendered([Text(VersionLine)], PomFromName, values, w);
    ContainsRendered(Tagged("<artifactId>", ArtifactIdSlot, "</artifactId>"), [Text(VersionLine)] + PomFromName,
                     values, w);
    InPomFromArtifactId(values, w);
  }

  lemma InPomFromDescription(values: map<Slot, string>, w: string)
    requires Contains(Render(PomFromDescription, values), w)
    ensures Contains(Render(PomTemplate, values), w)
  {
    ContainsRendered([Text("\n    ")], PomFromDescription, values, w);
    ContainsRendered(Tagged("<name>", ProjectNameSlot, "</name>"), [Text("\n    ")] + PomFromDescription, values, w);
    InPomFromName(values, w);
  }

  lemma InPomFromBootVersion(values: map<Slot, string>, w: string)
    requires Contains(Render(PomFromBootVersion, values), w)
    ensures Contains(Render(PomTemplate, values), w)
  {
    ContainsRendered([Text(ParentPrologue)], PomFromBootVersion, values, w);
    ContainsRendered(Tagged("<description>", DescriptionSlot, "</description>"),
                     [Text(ParentPrologue)] + PomFromBootVersion, values, w);
    InPomFromDescription(values, w);
  }

  lemma InPomFromJavaVersion(values: map<Slot, string>, w: string)
    requires Contains(Render(PomFromJavaVersion, values), w)
    ensures Contains(Render(PomTemplate, values), w)
  {
    ContainsRendered([Text(PropertiesPrologue)], PomFromJavaVersion, values, w);
    ContainsRendered(Tagged("<version>", BootVersionSlot, "</version>"),
                     [Text(PropertiesPrologue)] + PomFromJavaVersion, values, w);
    InPomFromBootVersion(values, w);
  }

  lemma InPomFromDependencies(values: map<Slot, string>, w: string)
    requires Contains(Render(PomFromDependencies, values), w)
    ensures Contains(Render(PomTemplate, values), w)
  {
    ContainsRendered([Text(DependenciesPrologue)], PomFromDependencies, values, w);
    ContainsRendered(Tagged("<java.version>", JavaVersionSlot, "</java.version>"),
                     [Text(DependenciesPrologue)] + PomFromDependencies, values, w);
    InPomFromJavaVersion(values, w);
  }

  /**
   * The project's own coordinates, next to each other and followed by the
   * fixed project version; the indentation sets them apart from the parent's.
   */
  lemma PomCoordinatesVerbatim(values: map<Slot, string>)
    requires PomComplete(values)
    ensures Contains(Render(PomTemplate, values),
                     "<groupId>" + values[GroupIdSlot] + "</groupId>" + "\n    " + "<artifactId>" + values[ArtifactIdSlot] +
                     "</artifactId>" + "\n    <version>0.0.1-SNAPSHOT</version>")
  {
    var g, a := values[GroupIdSlot], values[ArtifactIdSlot];
    var n, version := "\n    ", "\n    <version>0.0.1-SNAPSHOT</version>";
    var w := "<groupId>" + g + "</groupId>" + n + "<artifactId>" + a + "</artifactId>" + version;
    var rest := Render(PomFromName, values);
    RenderTaggedThen("<groupId>", GroupIdSlot, "</groupId>", n, PomFromArtifactId, values);
    RenderTaggedThen("<artifactId>", ArtifactIdSlot, "</artifactId>", VersionLine, PomFromName, values);
    CoordinatesSplice(Render(PomFromGroupId, values), Render(PomFromArtifactId, values),
                      "<groupId>", g, "</groupId>", n, "<artifactId>", a, "</artifactId>", version, rest);
    ContainsMiddle("", w, n + rest);
    InPomFromGroupId(values, w);
  }

  /** Regrouping only, stated over plain strings so that the proof above need not unfold the template text. */
  lemma CoordinatesSplice(whole: string, tail: string, o1: string, g: string, c1: string, n: string,
                          o2: string, a: string, c2: string, version: string, rest: string)
    requires whole == o1 + g + c1 + n + tail
    requires tail == o2 + a + c2 + (version + n) + rest
    ensures whole == "" + (o1 + g + c1 + n + o2 + a + c2 + version) + (n + rest)
  {
  }

  /** The Spring Boot version stands in the `<parent>` element, right after the starter parent's name. */
  lemma PomParentVersionVerbatim(values: map<Slot, string>)
    requires PomComplete(values)
    ensures Contains(Render(PomTemplate, values), ParentStart + "<version>" + values[BootVersionSlot] + "</version>")
  {
    var d, v := values[DescriptionSlot], values[BootVersionSlot];
    var blank := "\n    \n    ";
    var w := ParentStart + "<version>" + v + "</version>";
    var rest := Render(PomFromJavaVersion, values);
    RenderTaggedThen("<description>", DescriptionSlot, "</description>", ParentPrologue, PomFromBootVersion, values);
    RenderTaggedThen("<version>", BootVersionSlot, "</version>", PropertiesPrologue, PomFromJavaVersion, values);
    ParentSplice(Render(PomFromDescription, values), Render(PomFromBootVersion, values),
                 "<description>", d, "</description>", blank, ParentStart, "<version>", v, "</version>",
                 PropertiesPrologue, rest);
    ContainsMiddle("<description>" + d + "</description>" + blank, w, PropertiesPrologue + rest);
    InPomFromDescription(values, w);
  }

  /** Regrouping only, stated over plain strings so that the proof above need not unfold the template text. */
  lemma ParentSplice(whole: string, tail: string, o1: string, d: string, c1: string, blank: string,
                     start: string, o2: string, v: string, c2: string, after: string, rest: string)
    requires whole == o1 + d + c1 + (blank + start) + tail
    requires tail == o2 + v + c2 + after + rest
    ensures whole == (o1 + d + c1 + blank) + (start + o2 + v + c2) + (after + rest)
  {
  }

  /** Whatever the values, the project's identity stands verbatim between its tags in the descriptor. */
  lemma PomIdentityVerbatim(values: map<Slot, string>)
    requires PomComplete(values)
    ensures var r := Render(PomTemplate, values);
      Contains(r, "<groupId>" + values[GroupIdSlot] + "</groupId>" + "\n    " + "<artifactId>" + values[ArtifactIdSlot] +
                  "</artifactId>" + "\n    <version>0.0.1-SNAPSHOT</version>") &&
      Contains(r, "<name>" + values[ProjectNameSlot] + "</name>") &&
      Contains(r, "<description>" + values[DescriptionSlot] + "</description>")
  {
    PomCoordinatesVerbatim(values);

    var w := "<name>" + values[ProjectNameSlot] + "</name>";
    RenderTagged("<name>", ProjectNameSlot, "</name>", values);
    ContainsRendered(Tagged("<name>", ProjectNameSlot, "</name>"), [Text("\n    ")] + PomFromDescription, values, w);
    InPomFromName(values, w);

    w := "<description>" + values[DescriptionSlot] + "</description>";
    RenderTagged("<description>", DescriptionSlot, "</description>", values);
    ContainsRendered(Tagged("<description>", DescriptionSlot, "</description>"),
                     [Text(ParentPrologue)] + PomFromBootVersion, values, w);
    InPomFromDescription(values, w);
  }

  /** Whatever the values, the versions and the dependency list stand verbatim in their elements. */
  lemma PomBuildVerbatim(values: map<Slot, string>)
    requires PomComplete(values)
    ensures var r := Render(PomTemplate, values);
      Contains(r, ParentStart + "<version>" + values[BootVersionSlot] + "</version>") &&
      Contains(r, "<java.version>" + values[JavaVersionSlot] + "</java.version>") &&
      Contains(r, "<dependencies>\n        " + values[DependenciesSlot] + "\n    </dependencies>")
  {
    PomParentVersionVerbatim(values);

    var w := "<java.version>" + values[JavaVersionSlot] + "</java.version>";
    RenderTagged("<java.version>", JavaVersionSlot, "</java.version>", values);
    ContainsRendered(Tagged("<java.version>", JavaVersionSlot, "</java.version>"),
                     [Text(DependenciesPrologue)] + PomFromDependencies, values, w);
    InPomFromJavaVersion(values, w);

    w := "<dependencies>\n        " + values[DependenciesSlot] + "\n    </dependencies>";
    RenderTagged("<dependencies>\n        ", DependenciesSlot, "\n    </dependencies>", values);
    ContainsRendered(Tagged("<dependencies>\n        ", DependenciesSlot, "\n    </dependencies>"),
                     [Text(BuildSection)], values, w);
    InPomFromDependencies(values, w);
  }

  /** The project's coordinates stand verbatim between their tags: nothing is escaped. */
  lemma PomEmbedsCoordinates(d: ProjectData)
    requires d.javaVersion.Some? && d.dependencies.Some?
    ensures Contains(PomXml(d).value,
                     "<groupId>" + Interpolated(d.groupId) + "</groupId>" + "\n    " + "<artifactId>" + Interpolated(d.artifactId) +
                     "</artifactId>" + "\n    <version>0.0.1-SNAPSHOT</version>")
  {
    PomValuesOfSlots(d);
    PomIdentityVerbatim(PomValuesOf(d));
  }

  /** The free-text project name and description stand verbatim between their tags: nothing is escaped. */
  lemma PomEmbedsNameAndDescription(d: ProjectData)
    requires d.javaVersion.Some? && d.dependencies.Some?
    ensures Contains(PomXml(d).value, "<name>" + Interpolated(d.projectName) + "</name>")
    ensures Contains(PomXml(d).value, "<description>" + Interpolated(d.description) + "</description>")
  {
    PomValuesOfSlots(d);
    PomIdentityVerbatim(PomValuesOf(d));
  }

  /** The parent's version is the chosen Spring Boot version; `java.version` is the number from the label. */
  lemma PomEmbedsVersions(d: ProjectData)
    requires d.javaVersion.Some? && d.dependencies.Some?
    ensures Contains(PomXml(d).value, ParentStart + "<version>" + Interpolated(d.springBootVersion) + "</version>")
    ensures Contains(PomXml(d).value, "<java.version>" + JavaVersionNumber(d.javaVersion.value) + "</java.version>")
  {
    PomValuesOfSlots(d);
    PomBuildVerbatim(PomValuesOf(d));
  }

  /** The rendered dependency list sits inside the `<dependencies>` element. */
  lemma PomEmbedsDependencies(d: ProjectData)
    requires d.javaVersion.Some? && d.dependencies.Some?
    ensures Contains(PomXml(d).value,
                     "<dependencies>\n        " + DependenciesXml(d.dependencies.value) + "\n    </dependencies>")
  {
    PomValuesOfSlots(d);
    PomBuildVerbatim(PomValuesOf(d));
  }

  /** The descriptor reads only its seven substituted fields: not the database settings, not the package type. */
  lemma PomIgnoresOtherFields(d: ProjectData, e: ProjectData)
    requires d.groupId == e.groupId && d.artifactId == e.artifactId
    requires d.projectName == e.projectName && d.description == e.description
    requires d.springBootVersion == e.springBootVersion
    requires d.javaVersion == e.javaVersion && d.dependencies == e.dependencies
    ensures PomXml(d) == PomXml(e)
  {
  }

  /** "Java " followed by a version gives the version: "Java 21" gives "21". */
  lemma JavaVersionOfLabel(version: string)
    ensures JavaVersionNumber("Java " + version) == version
    ensures JavaVersionNumber("Java 21") == "21"
  {
    assert OccursAt("Java " + version, "Java ", 0);
    assert OccursAt("Java 21", "Java ", 0);
  }

  /** A label without "Java " is used as it is; with it, exactly its first "Java " is removed. */
  lemma JavaVersionRemovesFirstLabel(versionLabel: string)
    ensures !Contains(versionLabel, "Java ") ==> JavaVersionNumber(versionLabel) == versionLabel
    ensures Contains(versionLabel, "Java ") ==>
      var r, i := JavaVersionNumber(versionLabel), IndexOf(versionLabel, "Java ").value;
      |r| == |versionLabel| - 5 && i <= |r| && versionLabel == r[..i] + "Java " + r[i..]
  {
    RemoveFirstUndone(versionLabel, "Java ");
  }

  // ---- The entry point, `generateMainClass`

  const MainClassBody: string :=
    "\n" +
    "\n" +
    "import org.springframework.boot.SpringApplication;\n" +
    "import org.springframework.boot.autoconfigure.SpringBootApplication;\n" +
    "\n" +
    "@SpringBootApplication\n" +
    "public class Application {\n" +
    "    public static void main(String[] args) {\n" +
    "        SpringApplication.run(Application.class, args);\n" +
    "    }\n" +
    "}"

  /** The `Application.java` template literal. */
  const MainClassTemplate: seq<Segment> := [Text("package "), Hole(GroupIdSlot), Text(";" + MainClassBody)]

  /** `generateMainClass`: never throws; an absent group id prints as "undefined". */
  function MainClass(d: ProjectData): string
  {
    var values := map[GroupIdSlot := Interpolated(d.groupId)];
    Render(MainClassTemplate, values)
  }

  /** The entry point declares the group id as its package and is otherwise fixed. */
  lemma MainClassDeclaresPackage(d: ProjectData)
    ensures MainClass(d) == "package " + Interpolated(d.groupId) + ";" + MainClassBody
  {
    var values := map[GroupIdSlot := Interpolated(d.groupId)];
    RenderAroundHole("package ", GroupIdSlot, ";" + MainClassBody, values);
  }

  /** The entry point depends on the group id and on no other field. */
  lemma MainClassOnlyReadsGroupId(d: ProjectData, e: ProjectData)
    requires d.groupId == e.groupId
    ensures MainClass(d) == MainClass(e)
  {
  }
}
