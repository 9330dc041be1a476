/** What a validated manifest promises, and that what the preflight checked is what the
    restore then uses. */
module RestoreChecks {
  import opened Wrappers
  import opened Text
  import opened Restore
  import GoPath
  import PackagePaths
  import Preflight

  // ----- valid manifests -----

  /** In a validated manifest every artifact resolves, whatever the package root: the
      two path errors of the runner cannot occur. */
  lemma ValidManifestResolves(m: Manifest, root: string)
    requires ValidManifest(m)
    ensures ArchivesResolve(m.volumes, InPackage(root)) && DumpResolves(m, InPackage(root))
  {
    forall i | 0 <= i < |m.volumes| ensures InPackage(root)(m.volumes[i].archive).Some? {
      PackagePaths.ResolveSucceeds(root, m.volumes[i].archive);
    }
    if DumpDeclared(m) {
      PackagePaths.ResolveSucceeds(root, m.database.value.dump);
    }
  }

  lemma TrimField(s: string)
    requires FieldOk(s)
    ensures Trim(s) != "" && '\n' !in Trim(s) && '\r' !in Trim(s)
  {
    TrimSubset(s);
    forall c | c in Trim(s) ensures c >= ' ' {
      var i :| 0 <= i < |s| && s[i] == c;
    }
  }

  lemma NotBlankWith(s: string, i: nat)
    requires i < |s| && !IsSpace(s[i])
    ensures Trim(s) != ""
  {
  }

  lemma ResolvedNotBlank(root: string, relative: string)
    requires PackagePaths.Refusal(relative) == None
    ensures Trim(Place(InPackage(root), relative)) != ""
  {
    var front, more := GoPath.Segs(root), GoPath.Split(relative);
    PackagePaths.ResolveSucceeds(root, relative);
    GoPath.GlueSplit(relative);
    var p := Place(InPackage(root), relative);
    assert p == GoPath.Render(GoPath.Parsed(GoPath.IsAbs(root), front + more));
    if GoPath.IsAbs(root) {
      NotBlankWith(p, 0);
    } else if front == [] {
      assert front + more == more;
    } else {
      GoPath.GlueConcat(front, more);
      NotBlankWith(p, |GoPath.Glue(front)|);
    }
  }

  /** In a validated manifest a declared dump always has an import script. */
  lemma DumpAlwaysImported(m: Manifest, alias: string, root: string)
    requires ValidManifest(m) && (alias == "" || FieldOk(alias)) && DumpDeclared(m)
    ensures |DumpImport(m, alias, InPackage(root))| == 1
  {
    var db := m.database.value;
    ResolvedNotBlank(root, db.dump);
    TrimField(DatabaseContainer(m, alias));
  }

  // ----- what was checked is what is used -----

  lemma {:induction false} ImportsAreImports(vs: seq<Volume>, at: Locator)
    ensures forall i :: 0 <= i < |Imports(vs, at)| ==> Imports(vs, at)[i].ImportVolume?
  {
    if vs != [] {
      ImportsAreImports(vs[..|vs| - 1], at);
    }
  }

  function ArchivesOf(imports: seq<Action>): seq<string>
    requires forall i :: 0 <= i < |imports| ==> imports[i].ImportVolume?
  {
    seq(|imports|, i requires 0 <= i < |imports| => imports[i].archive)
  }

  /** The archives imported are the archives checked, in the same order. */
  lemma {:induction false} ImportsUseChecked(vs: seq<Volume>, at: Locator)
    ensures forall i :: 0 <= i < |Imports(vs, at)| ==> Imports(vs, at)[i].ImportVolume?
    ensures ArchivesOf(Imports(vs, at)) == Archives(vs, at)
  {
    ImportsAreImports(vs, at);
    if vs != [] {
      ImportsUseChecked(vs[..|vs| - 1], at);
    }
  }

  /** Where the path of a dump begins: with the root, unless that is the working directory. */
  function Opening(root: string, dump: string): string {
    if GoPath.Clean(root) == "." then dump else GoPath.Clean(root)
  }

  lemma RenderedEnds(rooted: bool, front: seq<string>, more: seq<string>)
    requires more != [] && GoPath.Glue(more) != ""
    requires front != [] ==> GoPath.Glue(front) != ""
    ensures var p, dump := GoPath.Render(GoPath.Parsed(rooted, front + more)), GoPath.Glue(more);
            && p != "" && p[|p| - 1] == dump[|dump| - 1]
            && p[0] == if rooted then '/' else if front == [] then dump[0] else GoPath.Glue(front)[0]
  {
    if front == [] {
      assert front + more == more;
    } else {
      GoPath.GlueConcat(front, more);
    }
  }

  lemma NotTheWorkingDirectory(root: string)
    requires GoPath.Segs(root) != []
    ensures GoPath.Clean(root) != "."
  {
    GoPath.CleanIdempotent(root);
    GoPath.SplitPlain(".");
    assert GoPath.Segs(".") == [];
  }

  /** The first character of a cleaned path. */
  lemma OpeningBegins(root: string, dump: string)
    requires dump != ""
    ensures var front, lead := GoPath.Segs(root), Opening(root, dump);
            && lead != "" && (front != [] ==> GoPath.Glue(front) != "")
            && lead[0] == if GoPath.IsAbs(root) then '/' else if front == [] then dump[0] else GoPath.Glue(front)[0]
  {
    GoPath.ParseNormal(root);
    if GoPath.Segs(root) != [] {
      GoPath.SplitGlueNormal(GoPath.Parse(root));
      NotTheWorkingDirectory(root);
    } else if GoPath.IsAbs(root) {
      assert GoPath.Clean(root)[0] == '/';
    }
  }

  lemma PlaceIs(root: string, dump: string)
    requires PackagePaths.Refusal(dump) == None
    ensures Place(InPackage(root), dump) == GoPath.Render(GoPath.Parsed(GoPath.IsAbs(root), GoPath.Segs(root) + GoPath.Split(dump)))
  {
    PackagePaths.ResolveSucceeds(root, dump);
  }

  lemma PlaceEnds(root: string, dump: string)
    requires PackagePaths.Refusal(dump) == None && dump != ""
    ensures Opening(root, dump) != ""
    ensures var p := Place(InPackage(root), dump);
            p != "" && p[0] == Opening(root, dump)[0] && p[|p| - 1] == dump[|dump| - 1]
  {
    PlaceIs(root, dump);
    GoPath.GlueSplit(dump);
    OpeningBegins(root, dump);
    SameEnds(GoPath.IsAbs(root), GoPath.Segs(root), GoPath.Split(dump), Place(InPackage(root), dump), Opening(root, dump), dump);
  }

  lemma SameEnds(rooted: bool, front: seq<string>, more: seq<string>, p: string, opening: string, dump: string)
    requires p == GoPath.Render(GoPath.Parsed(rooted, front + more)) && more != [] && GoPath.Glue(more) == dump != ""
    requires opening != "" && (front != [] ==> GoPath.Glue(front) != "")
    requires opening[0] == if rooted then '/' else if front == [] then dump[0] else GoPath.Glue(front)[0]
    ensures p != "" && p[0] == opening[0] && p[|p| - 1] == dump[|dump| - 1]
  {
    RenderedEnds(rooted, front, more);
  }

  lemma TrimEnds(p: string, lead: string, dump: string)
    requires p != "" && lead != "" && dump != "" && p[0] == lead[0] && p[|p| - 1] == dump[|dump| - 1]
    ensures Trim(p) == p <==> !IsSpace(lead[0]) && !IsSpace(dump[|dump| - 1])
  {
  }

  lemma ImportedDump(m: Manifest, alias: string, at: Locator)
    requires DumpImport(m, alias, at) != []
    ensures DumpDeclared(m) && DumpImport(m, alias, at)[0].dump == Trim(DumpPath(m, at))
  {
  }

  lemma ImportedIffTrimmed(m: Manifest, alias: string, at: Locator, p: string, tidy: bool)
    requires DumpImport(m, alias, at) != [] && p == DumpPath(m, at) && (Trim(p) == p <==> tidy)
    ensures DumpImport(m, alias, at)[0].dump == DumpPath(m, at) <==> tidy
  {
    ImportedDump(m, alias, at);
  }

  /** The rendered path neither begins nor ends in a blank. */
  predicate TidyEnds(root: string, dump: string)
    requires dump != ""
  {
    Opening(root, dump) != "" && !IsSpace(Opening(root, dump)[0]) && !IsSpace(dump[|dump| - 1])
  }

  lemma RefusesEmpty(s: string)
    requires PackagePaths.Refusal(s) == None
    ensures s != ""
  {
  }

  lemma DumpRefusal(m: Manifest)
    requires ValidManifest(m) && DumpDeclared(m)
    ensures PackagePaths.Refusal(m.database.value.dump) == None
  {
  }

  /** The dump imported is the dump checked exactly when its path neither begins nor ends in
      a blank, for any package root: the script builder trims, the preflight does not. */
  lemma DumpUsesCheckedIff(m: Manifest, alias: string, root: string)
    requires ValidManifest(m) && DumpDeclared(m) && (alias == "" || FieldOk(alias))
    ensures var dump, imports := m.database.value.dump, DumpImport(m, alias, InPackage(root));
            |imports| == 1 && (imports[0].dump == DumpPath(m, InPackage(root)) <==> TidyEnds(root, dump))
  {
    DumpAlwaysImported(m, alias, root);
    DumpRefusal(m);
    DumpTrimmedIff(root, m.database.value.dump);
    ImportedIffTrimmed(m, alias, InPackage(root), Place(InPackage(root), m.database.value.dump), TidyEnds(root, m.database.value.dump));
  }

  lemma DumpTrimmedIff(root: string, dump: string)
    requires PackagePaths.Refusal(dump) == None
    ensures dump != ""
    ensures var p := Place(InPackage(root), dump); Trim(p) == p <==> TidyEnds(root, dump)
  {
    RefusesEmpty(dump);
    PlaceEnds(root, dump);
    TrimEnds(Place(InPackage(root), dump), Opening(root, dump), dump);
  }

  /** A package of nothing but a database. */
  function WithDump(app: string, compose: string, engine: string, container: string, dump: string): Manifest {
    Manifest(1, app, compose, [], [], Some(Db(engine, container, dump)))
  }

  lemma WithDumpIsValid(app: string, compose: string, engine: string, container: string, dump: string)
    requires FieldOk(app) && FieldOk(container) && CanonicalEngine(engine).Some?
    requires PackagePaths.Refusal(compose) == None && PackagePaths.Refusal(dump) == None
    ensures ValidManifest(WithDump(app, compose, engine, container, dump))
  {
  }

  /** Fields of one printable character are in order. */
  lemma OneCharacter(c: char)
    requires DockerChar(c)
    ensures FieldOk([c]) && (c !in "_.-" ==> DockerName([c]))
  {
    assert !IsSpace([c][0]) && [c][0] >= ' ';
  }

  lemma SmallPackage(container: string, dump: string) returns (m: Manifest)
    requires FieldOk(container) && (dump == "d" || dump == "d ")
    ensures m.app == "a" && m.database == Some(Db("mysql", container, dump)) && ValidManifest(m)
  {
    OneCharacter('a');
    PlainSegment("c");
    PlainSegment(dump);
    MysqlIsKnown();
    m := WithDump("a", "c", "mysql", container, dump);
    WithDumpIsValid("a", "c", "mysql", container, dump);
  }

  predicate OtherDumpUsed(m: Manifest, root: string) {
    var imports := DumpImport(m, "", InPackage(root));
    |imports| == 1 && imports[0].dump != DumpPath(m, InPackage(root))
  }

  /** A valid package whose dump is checked under one path and imported from another because
      of the dump's name; */
  lemma CheckedDumpNotUsed() returns (m: Manifest)
    ensures ValidManifest(m) && OtherDumpUsed(m, "/p")
  {
    OneCharacter('a');
    m := SmallPackage("a", "d ");
    assert IsSpace("d "[1]);
    DumpUsesCheckedIff(m, "", "/p");
  }

  /** and one because of a relative target path, which nothing refuses. */
  lemma CheckedDumpNotUsedUnderBlank() returns (m: Manifest)
    ensures ValidManifest(m) && OtherDumpUsed(m, " p")
  {
    OneCharacter('a');
    m := SmallPackage("a", "d");
    BlankOpening("d");
    DumpUsesCheckedIff(m, "", " p");
  }

  lemma BlankOpening(dump: string)
    ensures Opening(" p", dump) == " p" && IsSpace(" p"[0])
  {
    GoPath.SplitPlain(" p");
  }

  lemma MysqlIsKnown()
    ensures CanonicalEngine("mysql") == Some("mysql")
  {
    assert ToLower("mysql") == "mysql";
  }

  lemma PlainSegment(s: string)
    requires s == "c" || s == "d" || s == "d "
    ensures PackagePaths.Refusal(s) == None
  {
    assert Slashed(s) == s;
    GoPath.SplitPlain(s);
    assert !IsSpace(s[0]);
    PackagePaths.AcceptedIff(s);
  }

  /** The names the preflight is told to look for, before they are cleaned like paths. */
  function AskedNames(m: Manifest, alias: string): seq<string> {
    [m.app] + (if alias != "" then [alias] else []) + (if m.database.Some? then [DatabaseContainer(m, alias)] else [])
  }

  /** What the probe really looks for: the names cleaned as paths, and then trimmed. */
  lemma LooksFor(m: Manifest, alias: string, used: string)
    ensures used in Preflight.Expected(ExpectedContainers(m, alias)) <==>
              used != "" && exists x :: x in AskedNames(m, alias) && Trim(x) != "" && Trim(DedupKey(x)) == used
  {
    var names := AskedNames(m, alias);
    var asked := ExpectedContainers(m, alias);
    assert asked == Dedup(names);
    if used in Preflight.Expected(asked) {
      var i :| 0 <= i < |asked| && Trim(asked[i]) != "" && Trim(asked[i]) == used;
      DedupMeaning(names, asked[i]);
      var k :| 0 <= k < |names| && Trim(names[k]) != "" && DedupKey(names[k]) == asked[i];
      assert names[k] in names;
    }
    if used != "" && exists x :: x in names && Trim(x) != "" && Trim(DedupKey(x)) == used {
      var x :| x in names && Trim(x) != "" && Trim(DedupKey(x)) == used;
      DedupMeaning(names, DedupKey(x));
      var i :| 0 <= i < |asked| && asked[i] == DedupKey(x);
      assert Trim(asked[i]) == used;
    }
  }

  /** The container a dump goes into is the trimmed name of the manifest. It is among those
      the preflight looks for exactly when one of the names asked for cleans to it. */
  lemma ContainerIsCheckedIff(m: Manifest, alias: string, at: Locator)
    requires DumpImport(m, alias, at) != []
    ensures var used := DumpImport(m, alias, at)[0].container;
            && used == Trim(DatabaseContainer(m, alias)) && used != ""
            && (used in Preflight.Expected(ExpectedContainers(m, alias)) <==>
                  exists x :: x in AskedNames(m, alias) && Trim(x) != "" && Trim(DedupKey(x)) == used)
  {
    LooksFor(m, alias, DumpImport(m, alias, at)[0].container);
  }

  /** Cleaning a name as if it were a path leaves it alone. */
  predicate SurvivesCleaning(name: string) {
    DedupKey(name) == Trim(name)
  }

  /** So a database container whose own name survives is always checked. */
  lemma SurvivingNameIsChecked(m: Manifest, alias: string, at: Locator)
    requires DumpImport(m, alias, at) != [] && SurvivesCleaning(DatabaseContainer(m, alias))
    ensures DumpImport(m, alias, at)[0].container in Preflight.Expected(ExpectedContainers(m, alias))
  {
    var name, names := DatabaseContainer(m, alias), AskedNames(m, alias);
    ContainerIsCheckedIff(m, alias, at);
    assert names[|names| - 1] == name && name in names;
    TrimTwice(name);
  }

  lemma TrimTwice(s: string)
    ensures Trim(Trim(s)) == Trim(s)
  {
  }

  /** A container name as Docker accepts it: a letter or digit, then letters, digits and
      "_.-". */
  predicate DockerName(s: string) {
    && s != "" && s[0] !in "_.-"
    && forall i :: 0 <= i < |s| ==> DockerChar(s[i])
  }

  predicate DockerChar(c: char) {
    'a' <= c <= 'z' || 'A' <= c <= 'Z' || '0' <= c <= '9' || c in "_.-"
  }

  /** Every such name survives, so for them what is imported into is what was checked. */
  lemma DockerNameIsChecked(m: Manifest, alias: string, at: Locator)
    requires DumpImport(m, alias, at) != [] && DockerName(DatabaseContainer(m, alias))
    ensures DumpImport(m, alias, at)[0].container == DatabaseContainer(m, alias)
    ensures DatabaseContainer(m, alias) in Preflight.Expected(ExpectedContainers(m, alias))
  {
    DockerNameSurvives(DatabaseContainer(m, alias));
    SurvivingNameIsChecked(m, alias, at);
  }

  lemma DockerNameSurvives(s: string)
    requires DockerName(s)
    ensures Trim(s) == s && SurvivesCleaning(s)
  {
    DockerCharacters(s);
    PlainSurvives(s);
  }

  lemma DockerCharacters(s: string)
    requires DockerName(s)
    ensures s != "." && s != ".." && forall i :: 0 <= i < |s| ==> s[i] != '/' && s[i] != '\\' && !IsSpace(s[i])
  {
    forall i | 0 <= i < |s| ensures s[i] != '/' && s[i] != '\\' && !IsSpace(s[i]) {
      assert DockerChar(s[i]);
    }
  }

  lemma PlainSurvives(s: string)
    requires s != "" && s != "." && s != ".."
    requires forall i :: 0 <= i < |s| ==> s[i] != '/' && s[i] != '\\' && !IsSpace(s[i])
    ensures Trim(s) == s && DedupKey(s) == s
  {
    assert Slashed(s) == s;
    OneSegment(s);
  }

  lemma OneSegment(s: string)
    requires GoPath.Ordinary(s)
    ensures GoPath.Clean(s) == s
  {
    GoPath.SplitPlain(s);
    assert GoPath.Reduce(false, [], [s]) == [s];
  }

  predicate OtherContainerUsed(m: Manifest, root: string) {
    var imports := DumpImport(m, "", InPackage(root));
    |imports| == 1 && imports[0].container !in Preflight.Expected(ExpectedContainers(m, ""))
  }

  /** A container that is named like the app with a slash behind it is never checked. */
  lemma SlashedContainerNotChecked(m: Manifest, root: string)
    requires ValidManifest(m) && DumpDeclared(m) && DockerName(m.app) && m.database.value.container == m.app + "/"
    ensures OtherContainerUsed(m, root)
  {
    var app, used := m.app, m.app + "/";
    DumpAlwaysImported(m, "", root);
    DockerCharacters(app);
    PlainSurvives(app);
    SlashCleaned(app);
    ContainerIsCheckedIff(m, "", InPackage(root));
    forall x | x in AskedNames(m, "") ensures Trim(DedupKey(x)) == app {
      OneOfTwo(m, x);
    }
    assert |app| < |used|;
  }

  lemma OneOfTwo(m: Manifest, x: string)
    requires m.database.Some? && x in AskedNames(m, "")
    ensures x == m.app || x == m.database.value.container
  {
  }

  lemma SlashCleaned(s: string)
    requires s != "" && s != "." && s != ".."
    requires forall i :: 0 <= i < |s| ==> s[i] != '/' && s[i] != '\\' && !IsSpace(s[i])
    ensures Trim(s + "/") == s + "/" && DedupKey(s + "/") == s
  {
    assert Slashed(s + "/") == s + "/";
    GoPath.SplitPlain(s);
    GoPath.SplitPlain("");
    GoPath.SplitAtSlash(s, "");
    assert s + "/" + "" == s + "/";
    GoPath.ReduceConcat(false, [], [s], [""]);
    assert GoPath.Reduce(false, [], [s]) == [s] && GoPath.Reduce(false, [s], [""]) == [s];
  }

  /** A valid manifest that imports into a container nobody looked for. */
  lemma ContainerNotChecked() returns (m: Manifest)
    ensures ValidManifest(m) && OtherContainerUsed(m, "/p")
  {
    OneCharacter('a');
    SlashField();
    m := SmallPackage("a/", "d");
    assert m.app + "/" == "a/";
    SlashedContainerNotChecked(m, "/p");
  }

  lemma SlashField()
    ensures FieldOk("a/")
  {
    assert !IsSpace("a/"[0]);
  }
}
