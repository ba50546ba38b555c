# Spring Boot project generator — a Dafny model

The system is a web wizard that collects a Spring Boot project description
(Maven coordinates, Java and Spring Boot versions, a set of dependencies,
optionally a database with connection settings) and posts it to a server
function. The server renders three files (a Maven `pom.xml`, a main
`Application.java` and an `application.properties`) and answers with a ZIP
archive. If any step throws, it answers with a generic error.

This project models both halves:

- `generator.dfy`, `templates.dfy`, `manifest.dfy` and `properties.dfy` model
  the server function. Its request body is a `ProjectData` value in which
  every field may be absent (`config.dfy`). A template literal prints an
  absent field as `undefined`. A read that JavaScript would throw on becomes
  an `Option` result. `Generator.Generate` builds the archive step by step
  in a `ZipArchive` object, and it is proved equal to the all-or-nothing
  function `Generator.Generated`. The response constructor throws on a
  `Content-Disposition` value with a character above U+00FF or a NUL, CR or
  LF. The artifact id is interpolated into that value, so such an artifact id
  also takes the error path.
- `wizard.dfy` models the wizard page as a class.
  - Its fields are the step counter and the form data.
  - Its methods are the page's handlers and its two navigation buttons.
  - The dependency `Set` keeps insertion order, so it is modelled as a
    sequence without repetitions.
  - The database catalog holds the page's four entries.
- `strings.dfy` holds the JavaScript string operations the renderers rely
  on:
  - `Array.prototype.join`;
  - `String.prototype.replace` with a string pattern, which replaces the
    first occurrence only;
  - `replace` with a global one-character pattern.

## Model

| member | source | states |
|---|---|---|
| Strings.JoinAppend | supabase/functions/generate/index.ts:170-172 | joining two non-empty lists is the two joins with one separator between them |
| Strings.JoinEmptyParts | supabase/functions/generate/index.ts:171-172 | a list of empty strings still joins to one separator fewer than it has elements |
| Strings.IndexOf | supabase/functions/generate/index.ts:81 | the search finds the first occurrence of the pattern, and finds nothing exactly when the pattern does not occur |
| Strings.ReplaceFirst | supabase/functions/generate/index.ts:81 | `replace` with a string pattern: the text before the first occurrence, the replacement, then the text after it; a text without the pattern is returned unchanged |
| Strings.RemoveFirstUndone | supabase/functions/generate/index.ts:81 | removing a string pattern leaves a text without it unchanged; otherwise it cuts out only the first occurrence, and putting the pattern back at that index restores the text |
| Strings.ReplaceChar | supabase/functions/generate/index.ts:26 | a global one-character replacement keeps the length and replaces every occurrence, leaving all other characters in place |
| Strings.ReplaceCharInverse | supabase/functions/generate/index.ts:26 | when the replacement character does not occur in the text, replacing it back restores the text |
| Strings.ReplaceCharAppend | supabase/functions/generate/index.ts:26 | a global one-character replacement works piece by piece over a concatenation |
| Strings.TerminatedAppend | supabase/functions/generate/index.ts:189-210 | terminating each line of two lists is terminating each list in turn |
| Strings.SplitTerminated | supabase/functions/generate/index.ts:189-210 | splitting newline-terminated lines that contain no newline gives back the lines |
| Manifest.TableEntry | supabase/functions/generate/index.ts:100-168 | the twelve names of the dependency table with each entry's group id, artifact id, scope and `optional` flag; every other name has no entry |
| Manifest.ElementText | supabase/functions/generate/index.ts:100-168 | the `<dependency>` element text of one table entry, with its leading line break and indentation, a `<scope>` line only when the entry has a scope and an `<optional>` line only when it is optional |
| Manifest.Fragment | supabase/functions/generate/index.ts:171 | `depMap[dep] \|\| ''` with the corrected lookup: the name's table element, or the empty text for a name the table does not hold |
| Manifest.Fragments | supabase/functions/generate/index.ts:170-171 | one fragment per requested name, in the caller's order |
| Manifest.DependenciesXml | supabase/functions/generate/index.ts:169-173 | `generateDependencies`: the fragments of the names in the caller's order, joined by line breaks |
| Manifest.ElementTextShape | supabase/functions/generate/index.ts:100-167 | every table entry starts on a new line with the `<dependency>` and `<groupId>` tags, continues with its group id and ends with `</dependency>` |
| Manifest.WebAndLombokDiffer | supabase/functions/generate/index.ts:101-121 | the web and Lombok entries are both in the table, their fragments are their elements, and their group ids differ |
| Manifest.ToStringNotInTable | supabase/functions/generate/index.ts:100-167 | `toString` is not one of the table's names |
| Manifest.FragmentIffKnown | supabase/functions/generate/index.ts:100-171 | a name yields text exactly when it is one of the twelve names the table knows |
| Manifest.DependenciesXmlEmpty | supabase/functions/generate/index.ts:170-172 | no dependencies render as the empty text |
| Manifest.DependenciesXmlSingle | supabase/functions/generate/index.ts:170-172 | a single name renders as its own fragment, with no separator |
| Manifest.DependenciesXmlAppend | supabase/functions/generate/index.ts:170-172 | the rendering of two name lists is the two renderings joined by a newline |
| Manifest.DependenciesXmlOfEach | supabase/functions/generate/index.ts:170-172 | for every position k, the rendering is the rendering of the names before k and a line break (if any), then the k-th name's fragment, then a line break and the rendering of the names after k (if any) |
| Manifest.UnknownNamesLeaveSeparators | supabase/functions/generate/index.ts:171-172 | names the table does not know contribute nothing but their newline separators |
| Manifest.DependenciesXmlPair | supabase/functions/generate/index.ts:170-172 | two names render as the first fragment, a newline and the second fragment |
| Manifest.SwapChangesText | supabase/functions/generate/index.ts:170-172 | two elements whose group ids differ give different texts in the two orders |
| Manifest.CallerOrderMatters | supabase/functions/generate/index.ts:170 | the fragments follow the caller's order, not the table's: swapping two names changes the text |
| Manifest.FragmentAsWritten | supabase/functions/generate/index.ts:171 | the lookup as written: a table element, else the printed text of a property inherited from `Object.prototype`, else the empty text |
| Manifest.DependenciesXmlAsWritten | supabase/functions/generate/index.ts:169-173 | `generateDependencies` with the lookup as written |
| Manifest.InheritedNameEmitsText | supabase/functions/generate/index.ts:171 | as written, the name `toString` emits the text of a built-in function although the table does not list it; the corrected lookup emits nothing |
| Manifest.AsWrittenAgreesOffInherited | supabase/functions/generate/index.ts:171 | the lookup as written and the corrected lookup agree on every list without an inherited property name |
| Templates.RenderAppend | supabase/functions/generate/index.ts:61-96 | rendering a template is compositional over concatenation |
| Templates.RenderAroundHole | supabase/functions/generate/index.ts:61-96 | a slot with its surrounding text renders as that text with the value in between |
| Templates.RenderTagged | supabase/functions/generate/index.ts:61-96 | a value substituted between an opening and a closing tag appears verbatim between them, with no escaping |
| Templates.ContainsRendered | supabase/functions/generate/index.ts:61-96 | text rendered by any part of a template occurs in the rendering of the whole |
| Templates.JavaVersionNumber | supabase/functions/generate/index.ts:81 | `javaVersion.replace('Java ', '')`: the label with its first `Java ` removed |
| Templates.PomXml | supabase/functions/generate/index.ts:60-97 | the descriptor renders exactly when the Java version and the dependency list are present, the two reads that throw |
| Templates.PomIdentityVerbatim | supabase/functions/generate/index.ts:66-71 | for any values, the project's own group id and artifact id stand verbatim in their tags on consecutive lines, followed by the fixed project version `0.0.1-SNAPSHOT`, and the name and description stand verbatim between their tags |
| Templates.PomBuildVerbatim | supabase/functions/generate/index.ts:75-86 | for any values, the Spring Boot version stands verbatim in the `<parent>` element, right after the starter parent's group id and artifact id; the Java version and the dependency rendering stand verbatim in their elements |
| Templates.PomEmbedsCoordinates | supabase/functions/generate/index.ts:67-68 | the descriptor holds the project's own group id and artifact id in their elements, followed by the fixed project version, printing an absent one as `undefined` |
| Templates.PomEmbedsNameAndDescription | supabase/functions/generate/index.ts:70-71 | the descriptor holds the project name inside `<name>` and the description inside `<description>`, printing an absent one as `undefined` |
| Templates.PomEmbedsVersions | supabase/functions/generate/index.ts:75-81 | the `<parent>` element's `<version>` is the requested Spring Boot version, and `<java.version>` holds the version label with its first `Java ` removed |
| Templates.PomEmbedsDependencies | supabase/functions/generate/index.ts:84-86 | the `<dependencies>` element holds the dependency rendering verbatim |
| Templates.PomIgnoresOtherFields | supabase/functions/generate/index.ts:60-97 | the descriptor depends only on the seven fields it interpolates |
| Templates.JavaVersionOfLabel | supabase/functions/generate/index.ts:81 | a label `Java N` yields `N`, so the wizard's default `Java 21` yields `21` |
| Templates.JavaVersionRemovesFirstLabel | supabase/functions/generate/index.ts:81 | a label without `Java ` passes unchanged; otherwise only its first occurrence is removed |
| Templates.MainClass | supabase/functions/generate/index.ts:175-187 | `generateMainClass`: the entry point text with the group id interpolated as its package |
| Templates.MainClassDeclaresPackage | supabase/functions/generate/index.ts:175-187 | the entry point declares the group id as its package, followed by the fixed class text |
| Templates.MainClassOnlyReadsGroupId | supabase/functions/generate/index.ts:175-187 | the entry point depends on the group id alone |
| Properties.PropertyLines | supabase/functions/generate/index.ts:189-210 | the lines `generateApplicationProperties` appends: the name line, then with a database the blank line, heading, url line and each truthy setting; `None` where reading the url throws |
| Properties.PropertiesText | supabase/functions/generate/index.ts:189-210 | `generateApplicationProperties`: the text of those lines, each ended by a line break |
| Properties.RenderProperties | supabase/functions/generate/index.ts:189-210 | the step-by-step rendering equals the line model; it fails exactly when a database is selected without settings; it always starts with the application name line, and that line is all of it when no database is selected |
| Properties.FormatAppend | supabase/functions/generate/index.ts:189-210 | the text of two line lists is the concatenation of their texts |
| Properties.FormatOptional | supabase/functions/generate/index.ts:196-206 | an optional setting's line list formats to its line when the value is truthy and to nothing otherwise |
| Properties.FormatDatabaseSection | supabase/functions/generate/index.ts:192-194 | the database section formats to a blank line, the heading and the url line |
| Properties.KeysOptional | supabase/functions/generate/index.ts:196-206 | an optional setting contributes its key exactly when its value is truthy |
| Properties.KeysAppend | supabase/functions/generate/index.ts:189-210 | the keys of two line lists are the keys of each in turn |
| Properties.PropertyKeys | supabase/functions/generate/index.ts:190-207 | the keys come in the fixed order name, url, user name, password, driver; the url is present whenever a database is selected; each of the other three is present exactly when its value is a non-empty string |
| Properties.DatabaseSectionText | supabase/functions/generate/index.ts:192-207 | with a database, the text is the name line, a blank line, the heading, the url line and the truthy settings |
| Properties.ReadFormat | supabase/functions/generate/index.ts:189-210 | a simplified reader (blank lines, `#` comments, key up to the first `=`; not the full Java `.properties` syntax) gives the lines back from their text when no line holds a line break, and every key is non-empty, does not start a comment and holds no `=` |
| Properties.ParseLineText | supabase/functions/generate/index.ts:189-210 | a readable line parses back from its text, and its text holds no line break |
| Properties.NameAndUrlKeysReadable | supabase/functions/generate/index.ts:190-194 | the name and url keys are non-empty, start no comment and hold no `=` or line break |
| Properties.CredentialKeysReadable | supabase/functions/generate/index.ts:196-202 | the user name and password keys are readable keys |
| Properties.DriverKeyReadable | supabase/functions/generate/index.ts:204-206 | the driver key is a readable key |
| Properties.HeadingReadable | supabase/functions/generate/index.ts:193 | the database heading is a non-empty comment line without a line break |
| Properties.PropertiesReadBack | supabase/functions/generate/index.ts:189-210 | when the values hold no line break, the rendered file reads back to exactly the lines the renderer emits |
| Generator.MainClassPath | supabase/functions/generate/index.ts:27-30 | the entry point's archive path below the package directory |
| Generator.PackagePath | supabase/functions/generate/index.ts:26 | the package directory is the group id with every dot turned into a slash, and it holds no dot |
| Generator.PackagePathInverse | supabase/functions/generate/index.ts:26 | a group id without slashes is recovered from its directory |
| Generator.PackagePathWithoutDots | supabase/functions/generate/index.ts:26 | a group id without dots is its own package directory |
| Generator.PackagePathAppendSegment | supabase/functions/generate/index.ts:26 | each further dotted segment adds one directory level |
| Generator.EntryPointPath | supabase/functions/generate/index.ts:26-30 | a three-segment group id `a.b.c` puts the entry point at `src/main/java/a/b/c/Application.java` |
| Generator.HeaderValue | supabase/functions/generate/index.ts:39-45 | a header value the response constructor accepts: no character above U+00FF and no NUL, CR or LF |
| Generator.ContentDisposition | supabase/functions/generate/index.ts:43 | the archive response's `Content-Disposition` value, `attachment; filename="<artifactId>.zip"`, with an absent artifact id printed as `undefined` |
| Generator.HeaderValueAppend | supabase/functions/generate/index.ts:43 | a concatenation is an acceptable header value exactly when both parts are |
| Generator.ContentDispositionCarriesArtifactId | supabase/functions/generate/index.ts:43 | the header value is refused exactly when the interpolated artifact id is |
| Generator.AbsentArtifactIdAccepted | supabase/functions/generate/index.ts:43 | an absent artifact id names the file `undefined.zip`, which the constructor accepts |
| Generator.WideArtifactIdRefused | supabase/functions/generate/index.ts:39-57 | an artifact id holding a character outside Latin-1, such as `demo中`, makes the response constructor throw |
| Generator.Throws | supabase/functions/generate/index.ts:16-57 | the steps that throw inside the `try`: a missing Java version, dependency list or group id, a selected database without settings, or a `Content-Disposition` value the response constructor refuses |
| Generator.Generated | supabase/functions/generate/index.ts:16-57 | the handler's answer: the archive of the three renderings, or the fixed 500 error when a read or the response constructor throws |
| Generator.PathsDistinct | supabase/functions/generate/index.ts:22-34 | the three archive paths never collide |
| Generator.GeneratedAllOrNothing | supabase/functions/generate/index.ts:16-57 | the answer is the error (500, fixed body) exactly when a throwing step fails, including the header check; otherwise an archive of exactly the three files with their renderings |
| Generator.GeneratedFailsOnThrow | supabase/functions/generate/index.ts:16-57 | the answer is the fixed error exactly when a throwing step fails, including the header check |
| Generator.GeneratedThreeFiles | supabase/functions/generate/index.ts:20-45 | when no step throws, the archive holds exactly three files at three distinct paths with their renderings |
| Generator.PackageTypeIgnored | supabase/functions/generate/index.ts:16-57 | the package type has no effect on the answer |
| Generator.Generate | supabase/functions/generate/index.ts:16-57 | building the archive step by step, then checking the `Content-Disposition` value, gives the all-or-nothing answer |
| Generator.ZipArchive.constructor | supabase/functions/generate/index.ts:18 | a new archive holds no files |
| Generator.ZipArchive.File | supabase/functions/generate/index.ts:22 | adding a file sets that path's content and keeps every other file |
| Wizard.CatalogShape | src/pages/GeneratorPage.tsx:22-64 | four databases with distinct names, each with a url; MongoDB has only a url; H2's password is empty |
| Wizard.WithInput | src/pages/GeneratorPage.tsx:93-95 | `handleInputChange`: the form with one input field set |
| Wizard.WithConfig | src/pages/GeneratorPage.tsx:106-114 | `handleDatabaseConfigChange`: the form with one connection setting set |
| Wizard.InputChangeFrame | src/pages/GeneratorPage.tsx:93-95 | an input change sets that input and leaves every other input, the dependencies and the database state unchanged |
| Wizard.ConfigChangeFrame | src/pages/GeneratorPage.tsx:106-114 | a setting change sets that setting and nothing else |
| Wizard.SetAdd | src/pages/GeneratorPage.tsx:102 | adding to the set gives the old members plus the new one, keeps the old order as a prefix and keeps members distinct |
| Wizard.SetDelete | src/pages/GeneratorPage.tsx:120 | deleting gives the members other than the name and keeps members distinct; deleting an absent name changes nothing |
| Wizard.SetDeleteKeepsOrder | src/pages/GeneratorPage.tsx:120 | deleting the member at index i of a set gives the members before i followed by the members after i, in their order |
| Wizard.Toggled | src/pages/GeneratorPage.tsx:116-126 | a toggle flips the membership of exactly one name and keeps members distinct |
| Wizard.ToggleTwiceSameMembers | src/pages/GeneratorPage.tsx:116-126 | toggling twice restores the members |
| Wizard.ToggleTwiceOrder | src/pages/GeneratorPage.tsx:116-126 | toggling twice restores the order exactly when the name was absent or was the last one added |
| Wizard.Selected | src/pages/GeneratorPage.tsx:97-104 | `handleDatabaseSelect`: the database recorded, its default settings copied and its driver added to the dependencies |
| Wizard.SelectAddsDriverOnly | src/pages/GeneratorPage.tsx:97-104 | selecting records the database, copies its default settings and adds its driver, removing no dependency; no other field of the form changes |
| Wizard.SelectIdempotent | src/pages/GeneratorPage.tsx:97-104 | selecting the same database twice is selecting it once |
| Wizard.SwitchKeepsEarlierDriver | src/pages/GeneratorPage.tsx:97-104 | switching to another database keeps the first one's driver and takes the second one's settings |
| Wizard.Payload | src/pages/GeneratorPage.tsx:129-132 | the request body: the form with the dependency set turned into a list, `selectedDatabase: null` as absent |
| Wizard.DownloadName | src/pages/GeneratorPage.tsx:152 | the downloaded file's name, `<artifactId>.zip` |
| Wizard.WizardPayloadGenerates | src/pages/GeneratorPage.tsx:128-132 | the form's request body takes the server's error path exactly when its artifact id is not an acceptable header value (a character above U+00FF, NUL, CR or LF) |
| Wizard.MongoDbRendersOnlyUrl | src/pages/GeneratorPage.tsx:45-52 | for any form, selecting MongoDB renders the name line and the database section with MongoDB's url, and nothing more: the keys are the name and the url |
| Wizard.H2RendersNoPassword | src/pages/GeneratorPage.tsx:53-63 | for any form, selecting H2 renders the name line, the database section with H2's url, then the user name `sa` and the H2 driver, but no password line: the keys are name, url, user name and driver |
| Wizard.GeneratorPage.constructor | src/pages/GeneratorPage.tsx:74-91 | the page mounts on the first step with the default form |
| Wizard.GeneratorPage.HandleInputChange | src/pages/GeneratorPage.tsx:93-95 | the form becomes the old form with that input set |
| Wizard.GeneratorPage.HandleDatabaseSelect | src/pages/GeneratorPage.tsx:97-104 | the form becomes the selection of the database |
| Wizard.GeneratorPage.HandleDatabaseConfigChange | src/pages/GeneratorPage.tsx:106-114 | the form becomes the old form with that setting set |
| Wizard.GeneratorPage.HandleDependencyToggle | src/pages/GeneratorPage.tsx:116-126 | the dependencies become the toggled set and nothing else changes |
| Wizard.GeneratorPage.Previous | src/pages/GeneratorPage.tsx:476-482 | the step goes back by one and never below the first |
| Wizard.GeneratorPage.Next | src/pages/GeneratorPage.tsx:483-492 | before the last step it moves one step on; on the last step it stays and submits the form as the request body, under the download name `<artifactId>.zip`, and the server answers that request with an archive exactly when the artifact id is an acceptable header value |

## Left out

- HTTP handling is not modelled: the method check, the CORS headers, `OPTIONS` requests and parsing the body with `req.json()`. The model starts from the parsed body.
- Body values of the wrong JSON type are not modelled. The text fields are strings or absent, `dependencies` is a list of strings or absent, `selectedDatabase` is a database option or absent, and `databaseConfig` is an object of connection settings or absent. In particular a JSON `null` in `groupId`, `artifactId`, `projectName`, `description`, `springBootVersion` or `databaseConfig.url` is not modelled: a template literal prints it as `null`, while the model prints an absent field as `undefined`.
- A JSON `null` is modelled as absent only where the code tests truthiness or throws on a dereference. The wizard sends `selectedDatabase: null` before a database is chosen (src/pages/GeneratorPage.tsx:84), and `Wizard.Payload` maps it to `None`. This is sound because `null` and an absent field are both falsy in the tests at supabase/functions/generate/index.ts:192, 196, 200 and 204, and both make the reads at index.ts:26, 81, 170 and 194 throw.
- Templates.PomXml, Generator.Generated and Generator.Generate use the corrected dependency lookup (`Manifest.DependenciesXml`, built on `Manifest.Fragment`). It emits nothing for names inherited from `Object.prototype`, such as `toString`. The code as written emits their text (see Findings). `Manifest.AsWrittenAgreesOffInherited` proves that the two lookups give the same text on every list without an inherited name. The rows for `Manifest.FragmentIffKnown` and `Manifest.UnknownNamesLeaveSeparators` describe the corrected lookup.
- JSZip's compressed bytes are not modelled. The archive is the map from path to file text. The response headers themselves are not part of the answer; only the response constructor's refusal of the `Content-Disposition` value is modelled, as a failure.
- Generator.Generate: the archive's asynchronous generation step is not modelled, because it cannot fail for the three string files.
- The client's `fetch`, blob download, `alert` and console logging are left out as I/O. `Next` returns the request body and the download name instead.
- The rendered JSX, the progress bar, the step titles and icons, and the schema step's placeholder are not modelled.
- The handlers accept arbitrary field names from the inputs. The model restricts them to the form's own fields (`InputField`, `ConfigField`).
- `Previous` is disabled on the first step. The model keeps the `Math.max(0, …)` clamp instead of the disabled state.
- The marketing pages, navigation bar, footer, hero image and the styling configuration are not part of this model.
- A missing `artifactId` does not throw in the server code. It renders as `undefined`, and the model does the same.
- Dependencies are emitted in the caller's order, not in a canonical order, as the code does.
- Optional database settings are emitted when they are non-empty strings (JavaScript truthiness). The model follows the code here.

## Findings

| source | as written | input that shows it | evidently intended | confidence | as-written member | corrected member |
|---|---|---|---|---|---|---|
| supabase/functions/generate/index.ts:171 | `depMap[dep] \|\| ''` looks the name up on an object literal, so names of inherited `Object.prototype` properties are found too; they are truthy functions, and `join` prints their source text into the descriptor | dependencies `["toString"]` put `function toString() { [native code] }` inside `<dependencies>` | names outside the table contribute nothing | not executed | Manifest.InheritedNameEmitsText | Manifest.FragmentIffKnown |
