/**
 * The `application.properties` renderer (`generateApplicationProperties`):
 * the application name, then, when a database is selected, a commented
 * database section whose optional settings appear only when their value is
 * a non-empty string.
 */
module Properties {
  import opened Wrappers
  import opened Strings
  import opened Config

  /** One line of a properties file. */
  datatype PropertyLine = Setting(key: string, value: string) | Blank | Comment(text: string)

  const NameKey: string := "spring.application.name"
  const UrlKey: string := "spring.datasource.url"
  const UsernameKey: string := "spring.datasource.username"
  const PasswordKey: string := "spring.datasource.password"
  const DriverKey: string := "spring.datasource.driver-class-name"
  const DatabaseHeading: string := "# Database Configuration"

  function LineText(l: PropertyLine): string
  {
    match l
    case Setting(k, v) => k + "=" + v
    case Blank => ""
    case Comment(t) => t
  }

  function LineTexts(lines: seq<PropertyLine>): (r: seq<string>)
    ensures |r| == |lines|
    ensures forall i :: 0 <= i < |lines| ==> r[i] == LineText(lines[i])
  {
    seq(|lines|, i requires 0 <= i < |lines| => LineText(lines[i]))
  }

  /** The file text: each line followed by a line break. */
  function Format(lines: seq<PropertyLine>): string
  {
    Terminated(LineTexts(lines))
  }

  /** A setting only when the value is truthy (present and not empty). */
  function OptionalSetting(key: string, v: Option<string>): seq<PropertyLine>
  {
    if Truthy(v) then [Setting(key, v.value)] else []
  }

  /**
   * The lines the renderer emits.  It throws (`None`) when a database is
   * selected but the body has no `databaseConfig` to read the url from.
   */
  function PropertyLines(d: ProjectData): Option<seq<PropertyLine>>
  {
    var name := [Setting(NameKey, Interpolated(d.artifactId))];
    if d.selectedDatabase.None? then Some(name)
    else if d.databaseConfig.None? then None
    else
      var c := d.databaseConfig.value;
      Some(name + DatabaseSection(Interpolated(c.url))
           + OptionalSetting(UsernameKey, c.username)
           + OptionalSetting(PasswordKey, c.password)
           + OptionalSetting(DriverKey, c.driver))
  }

  /** The properties text, when rendering does not throw. */
  function PropertiesText(d: ProjectData): Option<string>
  {
    match PropertyLines(d)
    case None => None
    case Some(lines) => Some(Format(lines))
  }

  /** The first line, which every rendering starts with. */
  function NameLine(d: ProjectData): string
  {
    NameKey + "=" + Interpolated(d.artifactId) + "\n"
  }

  /** A setting's line when the value is truthy, nothing otherwise. */
  function OptionalLine(key: string, v: Option<string>): string
  {
    if Truthy(v) then key + "=" + v.value + "\n" else ""
  }

  lemma FormatAppend(a: seq<PropertyLine>, b: seq<PropertyLine>)
    ensures Format(a + b) == Format(a) + Format(b)
  {
    assert LineTexts(a + b) == LineTexts(a) + LineTexts(b);
    TerminatedAppend(LineTexts(a), LineTexts(b));
  }

  lemma FormatSingle(l: PropertyLine)
    ensures Format([l]) == LineText(l) + "\n"
  {
    assert LineTexts([l]) == [LineText(l)];
    assert [LineText(l)][1..] == [];
    assert Terminated([LineText(l)]) == LineText(l) + "\n" + Terminated([]);
  }

  lemma FormatOptional(key: string, v: Option<string>)
    ensures Format(OptionalSetting(key, v)) == OptionalLine(key, v)
  {
    if Truthy(v) {
      FormatSingle(Setting(key, v.value));
    }
  }

  /** The database section: a blank line, the heading and the url setting. */
  function DatabaseSection(url: string): seq<PropertyLine>
  {
    [Blank, Comment(DatabaseHeading), Setting(UrlKey, url)]
  }

  lemma FormatDatabaseSection(url: string)
    ensures Format(DatabaseSection(url)) == DatabaseLines(url)
  {
    var section := DatabaseSection(url);
    assert section == [Blank] + [Comment(DatabaseHeading)] + [Setting(UrlKey, url)];
    FormatAppend([Blank], [Comment(DatabaseHeading)]);
    FormatAppend([Blank] + [Comment(DatabaseHeading)], [Setting(UrlKey, url)]);
    FormatSingle(Blank);
    FormatSingle(Comment(DatabaseHeading));
    FormatSingle(Setting(UrlKey, url));
    assert LineText(Blank) + "\n" == "\n";
    Flatten("\n", DatabaseHeading, "\n", UrlKey, "=", url, "\n");
  }

  /** Regrouping only: a proof step stated over plain strings so that callers need not unfold the texts. */
  lemma Flatten(a: string, b: string, c: string, d: string, e: string, f: string, g: string)
    ensures a + (b + c) + (d + e + f + g) == a + b + c + d + e + f + g
  {
  }

  /**
   * `generateApplicationProperties`, building the text by appending to a local
   * variable as the source does.
   */
  method RenderProperties(d: ProjectData) returns (properties: Option<string>)
    ensures properties == PropertiesText(d)
    ensures properties.None? <==> d.selectedDatabase.Some? && d.databaseConfig.None?
    ensures properties.Some? ==> NameLine(d) <= properties.value
    ensures properties.Some? && d.selectedDatabase.None? ==> properties.value == NameLine(d)
  {
    var text := NameKey + "=" + Interpolated(d.artifactId) + "\n";
    if d.selectedDatabase.Some? {
      if d.databaseConfig.None? {
        return None;
      }
      var c := d.databaseConfig.value;
      ghost var url := Interpolated(c.url);
      text := text + "\n" + DatabaseHeading + "\n";
      text := text + UrlKey + "=" + Interpolated(c.url) + "\n";
      Regroup7(NameLine(d), "\n", DatabaseHeading, "\n", UrlKey, "=", url, "\n");
      assert text == NameLine(d) + DatabaseLines(url);
      ghost var before := text;
      if Truthy(c.username) {
        text := text + UsernameKey + "=" + c.username.value + "\n";
        Regroup3(before, UsernameKey, "=", c.username.value, "\n");
      }
      assert text == before + OptionalLine(UsernameKey, c.username);
      before := text;
      if Truthy(c.password) {
        text := text + PasswordKey + "=" + c.password.value + "\n";
        Regroup3(before, PasswordKey, "=", c.password.value, "\n");
      }
      assert text == before + OptionalLine(PasswordKey, c.password);
      before := text;
      if Truthy(c.driver) {
        text := text + DriverKey + "=" + c.driver.value + "\n";
        Regroup3(before, DriverKey, "=", c.driver.value, "\n");
      }
      assert text == before + OptionalLine(DriverKey, c.driver);
      DatabaseSectionText(d);
      ghost var u, p, r := OptionalLine(UsernameKey, c.username), OptionalLine(PasswordKey, c.password),
                           OptionalLine(DriverKey, c.driver);
      Regroup3(NameLine(d), DatabaseLines(url), u, p, r);
      PrefixOfAppend(NameLine(d), DatabaseLines(url) + u + p + r);
    } else {
      FormatSingle(Setting(NameKey, Interpolated(d.artifactId)));
    }
    properties := Some(text);
  }

  /** Regrouping only: a proof step stated over plain strings so that callers need not unfold the texts. */
  lemma Regroup7(t: string, a: string, b: string, c: string, d: string, e: string, f: string, g: string)
    ensures t + a + b + c + d + e + f + g == t + (a + b + c + d + e + f + g)
  {
  }

  /** Regrouping only: a proof step stated over plain strings so that callers need not unfold the texts. */
  lemma Regroup3(t: string, a: string, b: string, c: string, d: string)
    ensures t + a + b + c + d == t + (a + b + c + d)
  {
  }

  /** Regrouping only: a proof step stated over plain strings so that callers need not unfold the texts. */
  lemma PrefixOfAppend(a: string, b: string)
    ensures a <= a + b
  {
    assert (a + b)[..|a|] == a;
  }

  /** The keys of the settings, in file order. */
  function Keys(lines: seq<PropertyLine>): seq<string>
  {
    if lines == [] then []
    else (if lines[0].Setting? then [lines[0].key] else []) + Keys(lines[1..])
  }

  lemma KeysOptional(key: string, v: Option<string>)
    ensures Keys(OptionalSetting(key, v)) == if Truthy(v) then [key] else []
  {
    if Truthy(v) {
      assert [Setting(key, v.value)][1..] == [];
    }
  }

  lemma KeysSingle(key: string, value: string)
    ensures Keys([Setting(key, value)]) == [key]
  {
    assert [Setting(key, value)][1..] == [];
  }

  lemma KeysDatabaseSection(url: string)
    ensures Keys(DatabaseSection(url)) == [UrlKey]
  {
    var section := DatabaseSection(url);
    assert section == [Blank, Comment(DatabaseHeading)] + [Setting(UrlKey, url)];
    KeysAppend([Blank, Comment(DatabaseHeading)], [Setting(UrlKey, url)]);
    KeysSingle(UrlKey, url);
    assert [Blank, Comment(DatabaseHeading)][1..][1..] == [];
  }

  lemma {:induction false} KeysAppend(a: seq<PropertyLine>, b: seq<PropertyLine>)
    ensures Keys(a + b) == Keys(a) + Keys(b)
  {
    if a == [] {
      assert a + b == b;
    } else {
      var head := if a[0].Setting? then [a[0].key] else [];
      assert (a + b)[0] == a[0];
      assert (a + b)[1..] == a[1..] + b;
      assert Keys(a + b) == head + Keys(a[1..] + b);
      KeysAppend(a[1..], b);
      assert Keys(a) == head + Keys(a[1..]);
    }
  }

  /**
   * The settings come in the fixed order name, url, username, password,
   * driver; the url is always there once a database is selected, and each of
   * the other three is there exactly when its value is a non-empty string.
   */
  lemma PropertyKeys(d: ProjectData)
    requires PropertyLines(d).Some?
    ensures Keys(PropertyLines(d).value) ==
      [NameKey] +
      if d.selectedDatabase.None? then []
      else
        var c := d.databaseConfig.value;
        [UrlKey] +
        (if Truthy(c.username) then [UsernameKey] else []) +
        (if Truthy(c.password) then [PasswordKey] else []) +
        (if Truthy(c.driver) then [DriverKey] else [])
  {
    var name := [Setting(NameKey, Interpolated(d.artifactId))];
    KeysSingle(NameKey, Interpolated(d.artifactId));
    if d.selectedDatabase.Some? {
      var c := d.databaseConfig.value;
      var section := DatabaseSection(Interpolated(c.url));
      KeysDatabaseSection(Interpolated(c.url));
      var u, p, r := OptionalSetting(UsernameKey, c.username), OptionalSetting(PasswordKey, c.password),
                     OptionalSetting(DriverKey, c.driver);
      KeysAppend(name, section);
      KeysAppend(name + section, u);
      KeysAppend(name + section + u, p);
      KeysAppend(name + section + u + p, r);
      KeysOptional(UsernameKey, c.username);
      KeysOptional(PasswordKey, c.password);
      KeysOptional(DriverKey, c.driver);
    }
  }

  /** The blank line, the heading and the url line that open the database section. */
  function DatabaseLines(url: string): string
  {
    "\n" + DatabaseHeading + "\n" + UrlKey + "=" + url + "\n"
  }

  /** With a database selected, the text is the name line, the heading, the url line and the truthy settings. */
  lemma DatabaseSectionText(d: ProjectData)
    requires d.selectedDatabase.Some? && d.databaseConfig.Some?
    ensures var c := d.databaseConfig.value;
      PropertiesText(d) == Some(NameLine(d) + DatabaseLines(Interpolated(c.url)) +
        OptionalLine(UsernameKey, c.username) +
        OptionalLine(PasswordKey, c.password) +
        OptionalLine(DriverKey, c.driver))
  {
    var c := d.databaseConfig.value;
    var name := [Setting(NameKey, Interpolated(d.artifactId))];
    var section := DatabaseSection(Interpolated(c.url));
    var u, p, r := OptionalSetting(UsernameKey, c.username), OptionalSetting(PasswordKey, c.password),
                   OptionalSetting(DriverKey, c.driver);
    FormatSingle(name[0]);
    FormatDatabaseSection(Interpolated(c.url));
    FormatAppend(name, section);
    FormatAppend(name + section, u);
    FormatAppend(name + section + u, p);
    FormatAppend(name + section + u + p, r);
    FormatOptional(UsernameKey, c.username);
    FormatOptional(PasswordKey, c.password);
    FormatOptional(DriverKey, c.driver);
  }

  // ---- Reading the file back

  /**
   * A line as a simplified reader takes it: blank, `#` comment, or key up to
   * the first `=`.  This is not the full Java `.properties` syntax: there are
   * no `:` or whitespace separators, no `!` comments, no backslash escapes and
   * no continuation lines, and whitespace around the key is kept.
   */
  function ParseLine(t: string): PropertyLine
  {
    if t == "" then Blank
    else if t[0] == '#' then Comment(t)
    else match IndexOf(t, "=")
      case Some(i) => Setting(t[..i], t[i + 1..])
      case None => Setting(t, "")
  }

  function ParseLines(texts: seq<string>): (r: seq<PropertyLine>)
    ensures |r| == |texts|
    ensures forall i :: 0 <= i < |texts| ==> r[i] == ParseLine(texts[i])
  {
    seq(|texts|, i requires 0 <= i < |texts| => ParseLine(texts[i]))
  }

  /** The lines of a properties text. */
  function ReadProperties(text: string): seq<PropertyLine>
  {
    ParseLines(SplitLines(text))
  }

  /** A line that reads back as itself: no line breaks, and a key that is not empty, not a comment and has no `=`. */
  predicate Readable(l: PropertyLine)
  {
    match l
    case Setting(k, v) => k != "" && k[0] != '#' && '=' !in k && '\n' !in k && '\n' !in v
    case Blank => true
    case Comment(t) => t != "" && t[0] == '#' && '\n' !in t
  }

  lemma ParseLineText(l: PropertyLine)
    requires Readable(l)
    ensures ParseLine(LineText(l)) == l
    ensures '\n' !in LineText(l)
  {
    if l.Setting? {
      var t := l.key + "=" + l.value;
      assert OccursAt(t, "=", |l.key|);
      assert t[..|l.key|] == l.key && t[|l.key| + 1..] == l.value;
    }
  }

  /** Reading a formatted file gives back its lines. */
  lemma ReadFormat(lines: seq<PropertyLine>)
    requires forall i :: 0 <= i < |lines| ==> Readable(lines[i])
    ensures ReadProperties(Format(lines)) == lines
  {
    var texts := LineTexts(lines);
    forall k | 0 <= k < |texts|
      ensures '\n' !in texts[k] && ParseLine(texts[k]) == lines[k]
    {
      ParseLineText(lines[k]);
    }
    SplitTerminated(texts);
  }

  predicate AllReadable(lines: seq<PropertyLine>)
  {
    forall i :: 0 <= i < |lines| ==> Readable(lines[i])
  }

  lemma AllReadableAppend(a: seq<PropertyLine>, b: seq<PropertyLine>)
    requires AllReadable(a) && AllReadable(b)
    ensures AllReadable(a + b)
  {
    forall i | 0 <= i < |a + b| ensures Readable((a + b)[i]) {
      if i >= |a| { assert (a + b)[i] == b[i - |a|]; }
    }
  }

  /** A key the renderer uses reads back as a key. */
  predicate ReadableKey(k: string)
  {
    k != "" && k[0] != '#' && '=' !in k && '\n' !in k
  }

  lemma NameAndUrlKeysReadable()
    ensures ReadableKey(NameKey) && ReadableKey(UrlKey)
  {
    assert ReadableKey(NameKey);
  }

  lemma CredentialKeysReadable()
    ensures ReadableKey(UsernameKey) && ReadableKey(PasswordKey)
  {
    assert ReadableKey(UsernameKey);
  }

  lemma DriverKeyReadable()
    ensures ReadableKey(DriverKey)
  {
    assert ReadableKey(DriverKey);
  }

  lemma HeadingReadable()
    ensures DatabaseHeading != "" && DatabaseHeading[0] == '#' && '\n' !in DatabaseHeading
  {
  }

  /**
   * The rendered file reads back as the intended lines whenever the values
   * hold no line breaks: one setting per line, in order.
   */
  lemma PropertiesReadBack(d: ProjectData)
    requires PropertyLines(d).Some?
    requires '\n' !in Interpolated(d.artifactId)
    requires d.databaseConfig.Some? ==>
      var c := d.databaseConfig.value;
      '\n' !in Interpolated(c.url) &&
      (c.username.Some? ==> '\n' !in c.username.value) &&
      (c.password.Some? ==> '\n' !in c.password.value) &&
      (c.driver.Some? ==> '\n' !in c.driver.value)
    ensures ReadProperties(PropertiesText(d).value) == PropertyLines(d).value
  {
    NameAndUrlKeysReadable();
    CredentialKeysReadable();
    DriverKeyReadable();
    HeadingReadable();
    var name := [Setting(NameKey, Interpolated(d.artifactId))];
    assert AllReadable(name);
    if d.selectedDatabase.Some? {
      var c := d.databaseConfig.value;
      var section := DatabaseSection(Interpolated(c.url));
      var u, p, r := OptionalSetting(UsernameKey, c.username), OptionalSetting(PasswordKey, c.password),
                     OptionalSetting(DriverKey, c.driver);
      assert AllReadable(section);
      assert AllReadable(u) && AllReadable(p) && AllReadable(r);
      AllReadableAppend(name, section);
      AllReadableAppend(name + section, u);
      AllReadableAppend(name + section + u, p);
      AllReadableAppend(name + section + u + p, r);
    }
    ReadFormat(PropertyLines(d).value);
  }
}
