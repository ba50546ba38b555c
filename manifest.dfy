/**
 * The dependency manifest: the generator's fixed table from a dependency's
 * display name to the Maven `<dependency>` element it contributes, and the
 * rendering of a list of names into the body of `<dependencies>`
 * (`generateDependencies`).
 */
module Manifest {
  import opened Wrappers
  import opened Strings

  /** What one table entry declares: Maven coordinates, an optional scope, an optional flag. */
  datatype Coordinates = Coordinates(
    groupId: string,
    artifactId: string,
    scope: Option<string>,
    optional: bool)

  function SpringBoot(artifactId: string, scope: Option<string>, optional: bool): Coordinates
  {
    Coordinates("org.springframework.boot", artifactId, scope, optional)
  }

  /** How every `<dependency>` element of the table opens, up to its group id. */
  const ElementOpen: string := "\n        <dependency>\n" + "            <groupId>"

  /** How every `<dependency>` element of the table closes. */
  const ElementClose: string := "        </dependency>"

  /** The XML text of one table entry, with the table's indentation and leading line break. */
  function ElementText(c: Coordinates): string
  {
    ElementOpen + c.groupId + ElementBody(c) + ElementClose
  }

  /** The lines of an element between its group id and its closing tag. */
  function ElementBody(c: Coordinates): string
  {
    "</groupId>\n" +
    "            <artifactId>" + c.artifactId + "</artifactId>\n" +
    (if c.scope.Some? then "            <scope>" + c.scope.value + "</scope>\n" else "") +
    (if c.optional then "            <optional>true</optional>\n" else "")
  }

  /** The table: the eight framework modules and one driver per catalog database. */
  function TableEntry(name: string): Option<Coordinates>
  {
    match name
    case "Spring Web" => Some(SpringBoot("spring-boot-starter-web", None, false))
    case "Spring Data JPA" => Some(SpringBoot("spring-boot-starter-data-jpa", None, false))
    case "Spring Security" => Some(SpringBoot("spring-boot-starter-security", None, false))
    case "Lombok" => Some(Coordinates("org.projectlombok", "lombok", None, true))
    case "Spring Boot DevTools" => Some(SpringBoot("spring-boot-devtools", Some("runtime"), true))
    case "Spring Boot Actuator" => Some(SpringBoot("spring-boot-starter-actuator", None, false))
    case "Validation" => Some(SpringBoot("spring-boot-starter-validation", None, false))
    case "Spring Boot Test" => Some(SpringBoot("spring-boot-starter-test", Some("test"), false))
    case "PostgreSQL Driver" => Some(Coordinates("org.postgresql", "postgresql", Some("runtime"), false))
    case "MySQL Driver" => Some(Coordinates("com.mysql", "mysql-connector-j", Some("runtime"), false))
    case "MongoDB Driver" => Some(SpringBoot("spring-boot-starter-data-mongodb", None, false))
    case "H2 Driver" => Some(Coordinates("com.h2database", "h2", Some("runtime"), false))
    case _ => None
  }

  /** The names the table holds, in its own order. */
  const TableNames: seq<string> := [
    "Spring Web", "Spring Data JPA", "Spring Security", "Lombok",
    "Spring Boot DevTools", "Spring Boot Actuator", "Validation", "Spring Boot Test",
    "PostgreSQL Driver", "MySQL Driver", "MongoDB Driver", "H2 Driver"]

  /** `depMap[dep] || ''` read as a lookup of the table's own entries. */
  function Fragment(name: string): string
  {
    match TableEntry(name)
    case Some(c) => ElementText(c)
    case None => ""
  }

  /** One fragment per name, in the caller's order. */
  function Fragments(names: seq<string>): (r: seq<string>)
    ensures |r| == |names|
    ensures forall i :: 0 <= i < |names| ==> r[i] == Fragment(names[i])
  {
    seq(|names|, i requires 0 <= i < |names| => Fragment(names[i]))
  }

  /** `generateDependencies`: the fragments of the names in the caller's order, joined by line breaks. */
  function DependenciesXml(names: seq<string>): string
  {
    Join(Fragments(names), "\n")
  }

  /** Every entry renders as one `<dependency>` element that opens with its group id. */
  lemma ElementTextShape(c: Coordinates)
    ensures var f := ElementText(c);
      |f| > |ElementOpen| + |c.groupId| + |ElementClose| &&
      f[..|ElementOpen|] == ElementOpen &&
      f[|ElementOpen|..|ElementOpen| + |c.groupId|] == c.groupId &&
      f[|f| - |ElementClose|..] == ElementClose
  {
    var f := ElementText(c);
    var n := |ElementOpen| + |c.groupId|;
    assert f == (ElementOpen + c.groupId) + (ElementBody(c) + ElementClose);
    assert f[..n] == ElementOpen + c.groupId;
    assert f == (ElementOpen + c.groupId + ElementBody(c)) + ElementClose;
  }

  /** A name yields a fragment exactly when the table holds it; unknown names yield "". */
  lemma FragmentIffKnown(name: string)
    ensures Fragment(name) != "" <==> name in TableNames
  {
    if name in TableNames {
      ElementTextShape(TableEntry(name).value);
    }
  }

  /** Nothing selected, nothing rendered. */
  lemma DependenciesXmlEmpty()
    ensures DependenciesXml([]) == ""
  {
  }

  /** The rendering follows the caller's list: a split list renders as its two halves around one line break. */
  lemma {:induction false} DependenciesXmlAppend(a: seq<string>, b: seq<string>)
    requires |a| > 0 && |b| > 0
    ensures DependenciesXml(a + b) == DependenciesXml(a) + "\n" + DependenciesXml(b)
  {
    assert Fragments(a + b) == Fragments(a) + Fragments(b);
    JoinAppend(Fragments(a), Fragments(b), "\n");
  }

  /** A single name renders as its own fragment, with no separator. */
  lemma DependenciesXmlSingle(name: string)
    ensures DependenciesXml([name]) == Fragment(name)
  {
    assert Fragments([name]) == [Fragment(name)];
  }

  /**
   * Each name contributes its own fragment at its own place in the list: after
   * the earlier names and a line break, before a line break and the later names.
   */
  lemma {:induction false} DependenciesXmlOfEach(names: seq<string>, k: nat)
    requires k < |names|
    ensures DependenciesXml(names) ==
      (if k == 0 then "" else DependenciesXml(names[..k]) + "\n") +
      Fragment(names[k]) +
      (if k + 1 == |names| then "" else "\n" + DependenciesXml(names[k + 1..]))
  {
    var here, tail := Fragment(names[k]), if k + 1 == |names| then "" else "\n" + DependenciesXml(names[k + 1..]);
    DependenciesXmlFrom(names, k);
    if 0 < k {
      DependenciesXmlSplit(names, k);
      Reassociate(DependenciesXml(names[..k]) + "\n", DependenciesXml(names[k..]), here, tail);
    } else {
      assert names[k..] == names;
      Reassociate("", DependenciesXml(names), here, tail);
    }
  }

  /** Regrouping only, stated over plain strings so that the proof above need not unfold the renderings. */
  lemma Reassociate(front: string, middle: string, here: string, tail: string)
    requires middle == here + tail
    ensures front + middle == front + here + tail
  {
  }

  /** Cutting the list before its `k`-th name cuts the rendering at the line break there. */
  lemma DependenciesXmlSplit(names: seq<string>, k: nat)
    requires 0 < k < |names|
    ensures DependenciesXml(names) == DependenciesXml(names[..k]) + "\n" + DependenciesXml(names[k..])
  {
    assert names == names[..k] + names[k..];
    DependenciesXmlAppend(names[..k], names[k..]);
  }

  /** The rendering from the `k`-th name on: its fragment, then the later names after a line break. */
  lemma DependenciesXmlFrom(names: seq<string>, k: nat)
    requires k < |names|
    ensures DependenciesXml(names[k..]) ==
      Fragment(names[k]) + (if k + 1 == |names| then "" else "\n" + DependenciesXml(names[k + 1..]))
  {
    DependenciesXmlSingle(names[k]);
    if k + 1 < |names| {
      assert names[k..] == [names[k]] + names[k + 1..];
      DependenciesXmlAppend([names[k]], names[k + 1..]);
    } else {
      assert names[k..] == [names[k]];
    }
  }

  /**
   * Names the table does not know contribute no text but are still joined:
   * a list of `n + 1` unknown names renders as `n` line breaks, without error.
   */
  lemma {:induction false} UnknownNamesLeaveSeparators(names: seq<string>)
    requires |names| > 0
    requires forall i :: 0 <= i < |names| ==> names[i] !in TableNames
    ensures DependenciesXml(names) == Repeat("\n", |names| - 1)
  {
    var parts := Fragments(names);
    forall i | 0 <= i < |parts|
      ensures parts[i] == ""
    {
      FragmentIffKnown(names[i]);
    }
    JoinEmptyParts(parts, "\n");
  }

  /** Two names render as their two fragments, in the order given. */
  lemma DependenciesXmlPair(first: string, second: string)
    ensures DependenciesXml([first, second]) == Fragment(first) + "\n" + Fragment(second)
  {
    DependenciesXmlAppend([first], [second]);
    assert [first] + [second] == [first, second];
  }

  /**
   * Two elements whose group ids differ at the same position render
   * differently in the two orders.
   */
  lemma SwapChangesText(c: Coordinates, e: Coordinates, k: nat)
    requires k < |c.groupId| && k < |e.groupId| && c.groupId[k] != e.groupId[k]
    ensures ElementText(c) + "\n" + ElementText(e) != ElementText(e) + "\n" + ElementText(c)
  {
    var fc, fe := ElementText(c), ElementText(e);
    ElementTextShape(c);
    ElementTextShape(e);
    var i := |ElementOpen| + k;
    assert (fc + "\n" + fe)[i] == fc[i] == c.groupId[k];
    assert (fe + "\n" + fc)[i] == fe[i] == e.groupId[k];
  }

  /** The output order is the caller's order, not the table's: swapping two names changes the text. */
  lemma CallerOrderMatters()
    ensures DependenciesXml(["Spring Web", "Lombok"]) != DependenciesXml(["Lombok", "Spring Web"])
  {
    var web, lombok := TableEntry("Spring Web").value, TableEntry("Lombok").value;
    WebAndLombokDiffer();
    DependenciesXmlPair("Spring Web", "Lombok");
    DependenciesXmlPair("Lombok", "Spring Web");
    SwapChangesText(web, lombok, 4);
  }

  /** Both names are in the table, and their group ids differ at the fifth character. */
  lemma WebAndLombokDiffer()
    ensures TableEntry("Spring Web").Some? && TableEntry("Lombok").Some?
    ensures Fragment("Spring Web") == ElementText(TableEntry("Spring Web").value)
    ensures Fragment("Lombok") == ElementText(TableEntry("Lombok").value)
    ensures var web, lombok := TableEntry("Spring Web").value.groupId, TableEntry("Lombok").value.groupId;
      4 < |web| && 4 < |lombok| && web[4] != lombok[4]
  {
    assert TableEntry("Spring Web").value.groupId == "org.springframework.boot";
    assert TableEntry("Lombok").value.groupId == "org.projectlombok";
  }

  // The lookup as JavaScript performs it.  `depMap` is an object literal, so
  // `depMap[dep]` also finds the properties every object inherits from
  // `Object.prototype`; they are truthy, and `join` prints them as text.

  /** The properties an object literal inherits from `Object.prototype`. */
  const InheritedKeys: set<string> := {
    "constructor", "__defineGetter__", "__defineSetter__", "hasOwnProperty",
    "__lookupGetter__", "__lookupSetter__", "isPrototypeOf", "propertyIsEnumerable",
    "toString", "valueOf", "__proto__", "toLocaleString"}

  /** How `join` prints an inherited property: `Object.prototype` itself, or a built-in function. */
  function InheritedText(name: string): string
  {
    if name == "__proto__" then "[object Object]"
    else if name == "constructor" then "function Object() { [native code] }"
    else "function " + name + "() { [native code] }"
  }

  /** `depMap[dep] || ''` exactly as written, inherited properties included. */
  function FragmentAsWritten(name: string): string
  {
    match TableEntry(name)
    case Some(c) => ElementText(c)
    case None => if name in InheritedKeys then InheritedText(name) else ""
  }

  /** `generateDependencies` exactly as written. */
  function DependenciesXmlAsWritten(names: seq<string>): string
  {
    Join(seq(|names|, i requires 0 <= i < |names| => FragmentAsWritten(names[i])), "\n")
  }

  /** The code as written emits text for a name the table does not hold. */
  lemma InheritedNameEmitsText()
    ensures "toString" !in TableNames
    ensures DependenciesXmlAsWritten(["toString"]) == "function toString() { [native code] }"
    ensures DependenciesXml(["toString"]) == ""
  {
    ToStringNotInTable();
    ToStringAsWritten();
    DependenciesXmlAsWrittenSingle("toString");
    DependenciesXmlSingle("toString");
  }

  /** As written, the lookup of `toString` finds the inherited built-in function. */
  lemma ToStringAsWritten()
    ensures FragmentAsWritten("toString") == "function toString() { [native code] }"
  {
    ToStringNotInTable();
    ToStringInherited();
    assert FragmentAsWritten("toString") == InheritedText("toString");
  }

  /** `toString` is inherited, and printed as the source text of a built-in function. */
  lemma ToStringInherited()
    ensures "toString" in InheritedKeys
    ensures InheritedText("toString") == "function toString() { [native code] }"
  {
    ToStringPrinted();
  }

  lemma ToStringPrinted()
    ensures InheritedText("toString") == "function toString() { [native code] }"
  {
    assert "toString" != "__proto__" by { assert |"toString"| == 8 && |"__proto__"| == 9; }
    assert "toString" != "constructor" by { assert |"constructor"| == 11; }
  }

  /** As written too, a single name renders as its own lookup. */
  lemma DependenciesXmlAsWrittenSingle(name: string)
    ensures DependenciesXmlAsWritten([name]) == FragmentAsWritten(name)
  {
    assert seq(1, i requires 0 <= i < 1 => FragmentAsWritten([name][i])) == [FragmentAsWritten(name)];
  }

  lemma ToStringNotInTable()
    ensures "toString" !in TableNames && TableEntry("toString").None?
  {
    assert |"toString"| == 8;
    FragmentIffKnown("toString");
  }

  /** Apart from the inherited names, the code as written and the corrected lookup agree. */
  lemma {:induction false} AsWrittenAgreesOffInherited(names: seq<string>)
    requires forall i :: 0 <= i < |names| ==> names[i] !in InheritedKeys
    ensures DependenciesXmlAsWritten(names) == DependenciesXml(names)
  {
    var written := seq(|names|, i requires 0 <= i < |names| => FragmentAsWritten(names[i]));
    assert written == Fragments(names);
  }
}
