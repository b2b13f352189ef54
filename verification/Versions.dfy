/** Choosing script versions: the loops that pick the newest one, and what an install that
    must be newer guarantees about the next choice. */
module Versions {
  import opened Wrappers
  import opened Text

  datatype ScriptInfo = ScriptInfo(name: string, version: string, path: string)

  // ---------------------------------------------------------------- version numbers

  predicate Digits(s: string) {
    forall k | 0 <= k < |s| :: '0' <= s[k] <= '9'
  }

  function Decimal(s: string): nat
    requires Digits(s)
  {
    if s == "" then 0 else 10 * Decimal(s[..|s| - 1]) + (s[|s| - 1] - '0') as int
  }

  function Power(n: nat): nat {
    if n == 0 then 1 else 10 * Power(n - 1)
  }

  /** Decimal notation: every digit counts ten times the next. */
  lemma {:induction false} DecimalPlaces(a: string, b: string)
    requires Digits(a) && Digits(b)
    ensures Digits(a + b) && Decimal(a + b) == Times(Decimal(a), Power(|b|)) + Decimal(b)
  {
    if b == "" {
      assert a + b == a;
      Tens(Decimal(a), 1);
    } else {
      var c, last := b[..|b| - 1], (b[|b| - 1] - '0') as int;
      DecimalPlaces(a, c);
      assert (a + b)[..|a + b| - 1] == a + c;
      assert Decimal(a + b) == 10 * Decimal(a + c) + last && Decimal(b) == 10 * Decimal(c) + last;
      Tens(Decimal(a), Power(|c|));
      hide Times, Decimal;
    }
  }

  /** A product. */
  function Times(x: nat, y: nat): (r: nat)
    ensures r == x * y
  {
    x * y
  }

  lemma Tens(x: nat, y: nat)
    ensures Times(x, 10 * y) == 10 * Times(x, y)
    ensures Times(x, 1) == x
  {
  }

  lemma TenDigits(c: char)
    requires '0' <= c <= '9'
    ensures Decimal([c]) == c as int - '0' as int && Power(0) == 1 && Power(1) == 10
    ensures Decimal("0") == 0 && Decimal("9") == 9
  {
    assert [c][..0] == "";
  }

  /** A signed decimal number that fits 64 bits. */
  function Atoi(s: string): Option<int> {
    var unsigned := if s != "" && (s[0] == '+' || s[0] == '-') then s[1..] else s;
    if unsigned == "" || !Digits(unsigned) then None
    else
      var n := if s[0] == '-' then 0 - Decimal(unsigned) else Decimal(unsigned);
      if -0x8000_0000_0000_0000 <= n < 0x8000_0000_0000_0000 then Some(n) else None
  }

  /** "v3", "V3" and "3" are 3; nothing is 0. */
  function ParseVersionNumber(version: string): Option<nat> {
    var value := Trim(version);
    if value == "" then Some(0)
    else
      var number := Atoi(if value[0] == 'v' || value[0] == 'V' then value[1..] else value);
      if number.None? || number.value < 0 then None else Some(number.value)
  }

  /** Digits, with or without "v", "V" or a sign, are their decimal number if it fits 64 bits and
      is not negative. */
  lemma VersionNumbers(s: string)
    requires Digits(s) && s != ""
    ensures var n := if Decimal(s) <= 9_223_372_036_854_775_807 then Some(Decimal(s)) else None;
      && ParseVersionNumber(s) == n && ParseVersionNumber("+" + s) == n
      && ParseVersionNumber("v" + s) == n && ParseVersionNumber("V" + s) == n
    ensures ParseVersionNumber("-" + s) == if Decimal(s) == 0 then Some(0) else None
    ensures ParseVersionNumber("") == Some(0)
  {
    hide Trim, Decimal;
    DigitsAreWords(s);
    TrimWord(s);
    SignedNumber(s);
    Prefixed("+", s);
    Prefixed("-", s);
    Prefixed("v", s);
    Prefixed("V", s);
    assert Trim("") == "" by { Blank(); }
  }

  lemma Blank()
    ensures Trim("") == ""
  {
  }

  lemma SignedNumber(s: string)
    requires Digits(s) && s != ""
    ensures Atoi(s) == if Decimal(s) <= 9_223_372_036_854_775_807 then Some(Decimal(s)) else None
    ensures Atoi("+" + s) == Atoi(s)
    ensures Atoi("-" + s) == if Decimal(s) <= 9_223_372_036_854_775_808 then Some(0 - Decimal(s)) else None
  {
    hide Decimal;
    var plus, minus := "+" + s, "-" + s;
    assert plus[1..] == s && minus[1..] == s && plus[0] == '+' && minus[0] == '-';
    assert '0' <= s[0] <= '9';
  }

  lemma DigitsAreWords(s: string)
    requires Digits(s)
    ensures forall c | c in s :: !IsSpace(c)
  {
  }

  lemma Prefixed(p: string, s: string)
    requires p in ["+", "-", "v", "V"] && Digits(s) && s != ""
    ensures Trim(p + s) == p + s && (p + s)[1..] == s && (p + s)[0] == p[0]
  {
    DigitsAreWords(s);
    TrimWord(p + s);
  }

  /** No other character makes a version number. */
  lemma VersionChars(version: string, c: char)
    requires c in Trim(version) && !('0' <= c <= '9') && c !in "vV+-"
    ensures ParseVersionNumber(version) == None
  {
    var value := Trim(version);
    var body := if value[0] == 'v' || value[0] == 'V' then value[1..] else value;
    assert c in body;
    var unsigned := if body[0] == '+' || body[0] == '-' then body[1..] else body;
    assert c in unsigned;
    hide Trim, Decimal;
  }

  /** The number a selector compares: malformed versions count as 0. */
  function Number(s: ScriptInfo): nat {
    ParseVersionNumber(s.version).GetOr(0)
  }

  // ---------------------------------------------------------------- the newest of a name

  /** Of the scripts with this name, the first with the highest number. */
  ghost predicate IsLatest(scripts: seq<ScriptInfo>, name: string, i: nat) {
    && i < |scripts| && scripts[i].name == name
    && forall j | 0 <= j < |scripts| && scripts[j].name == name ::
         Number(scripts[j]) <= Number(scripts[i]) && (j < i ==> Number(scripts[j]) < Number(scripts[i]))
  }

  /** What the loops know after a prefix of the list. */
  ghost predicate Chosen(scripts: seq<ScriptInfo>, name: string, chosen: Option<ScriptInfo>) {
    if chosen.None? then forall j | 0 <= j < |scripts| :: scripts[j].name != name
    else exists i: nat :: IsLatest(scripts, name, i) && scripts[i] == chosen.value
  }

  lemma ChooseNext(scripts: seq<ScriptInfo>, name: string, chosen: Option<ScriptInfo>, next: ScriptInfo)
    requires Chosen(scripts, name, chosen)
    ensures var better := next.name == name && (chosen.None? || Number(next) > Number(chosen.value));
      Chosen(scripts + [next], name, if better then Some(next) else chosen)
  {
    hide Number;
    var longer := scripts + [next];
    if next.name == name && (chosen.None? || Number(next) > Number(chosen.value)) {
      assert IsLatest(longer, name, |scripts|);
    } else if chosen.Some? {
      var i: nat :| IsLatest(scripts, name, i) && scripts[i] == chosen.value;
      assert IsLatest(longer, name, i);
    }
  }

  lemma ChosenUnique(scripts: seq<ScriptInfo>, name: string, a: Option<ScriptInfo>, b: Option<ScriptInfo>)
    requires Chosen(scripts, name, a) && Chosen(scripts, name, b)
    ensures a == b
  {
    hide Number;
  }

  method LatestScript(scripts: seq<ScriptInfo>, name: string) returns (selected: Option<ScriptInfo>)
    ensures Chosen(scripts, name, selected)
  {
    hide Number;
    selected := None;
    var latestVersion: int := -1;
    for k := 0 to |scripts|
      invariant Chosen(scripts[..k], name, selected)
      invariant selected.Some? ==> latestVersion == Number(selected.value)
    {
      var info := scripts[k];
      ChooseNext(scripts[..k], name, selected, info);
      assert scripts[..k + 1] == scripts[..k] + [info];
      if info.name == name && (selected.None? || Number(info) > latestVersion) {
        selected, latestVersion := Some(info), Number(info);
      }
    }
    assert scripts[..|scripts|] == scripts;
  }

  method MaxVersion(scripts: seq<ScriptInfo>, name: string) returns (maxVersion: int, found: bool)
    ensures found <==> exists s :: s in scripts && s.name == name
    ensures found ==> exists i: nat :: IsLatest(scripts, name, i) && Number(scripts[i]) == maxVersion
  {
    hide Number;
    maxVersion := -1;
    ghost var chosen: Option<ScriptInfo> := None;
    for k := 0 to |scripts|
      invariant Chosen(scripts[..k], name, chosen)
      invariant maxVersion == if chosen.Some? then Number(chosen.value) else -1
    {
      var info := scripts[k];
      ChooseNext(scripts[..k], name, chosen, info);
      assert scripts[..k + 1] == scripts[..k] + [info];
      if info.name == name && Number(info) > maxVersion {
        maxVersion, chosen := Number(info), Some(info);
      }
    }
    assert scripts[..|scripts|] == scripts;
    found := maxVersion >= 0;
  }

  // ---------------------------------------------------------------- the newest of every name

  /** Go's string order. */
  predicate Less(a: string, b: string) {
    b != "" && (a == "" || a[0] < b[0] || (a[0] == b[0] && Less(a[1..], b[1..])))
  }

  /** The first character that differs decides; a prefix comes first. */
  lemma {:induction false} LessAt(p: string, c: char, x: string, d: char, y: string)
    requires c < d
    ensures Less(p + [c] + x, p + [d] + y) && Less(p, p + [c] + x)
  {
    var a, b := p + [c] + x, p + [d] + y;
    if p != "" {
      LessAt(p[1..], c, x, d, y);
      assert a[1..] == p[1..] + [c] + x && b[1..] == p[1..] + [d] + y;
    }
  }

  lemma {:induction false} LessTotal(a: string, b: string)
    ensures a != b <==> Less(a, b) || Less(b, a)
    ensures !(Less(a, b) && Less(b, a))
  {
    if a != "" && b != "" {
      LessTotal(a[1..], b[1..]);
      assert a == [a[0]] + a[1..] && b == [b[0]] + b[1..];
    }
  }

  lemma {:induction false} LessTransitive(a: string, b: string, c: string)
    requires Less(a, b) && Less(b, c)
    ensures Less(a, c)
  {
    if a != "" && a[0] == b[0] == c[0] { LessTransitive(a[1..], b[1..], c[1..]); }
  }

  ghost predicate SortedByName(s: seq<ScriptInfo>) {
    forall i, j | 0 <= i < j < |s| :: Less(s[i].name, s[j].name)
  }

  /** The library sort, on entries with different names. */
  function Insert(s: seq<ScriptInfo>, x: ScriptInfo): seq<ScriptInfo> {
    if s == [] || Less(x.name, s[0].name) then [x] + s else [s[0]] + Insert(s[1..], x)
  }

  lemma {:induction false} InsertSorts(s: seq<ScriptInfo>, x: ScriptInfo)
    requires SortedByName(s) && forall y | y in s :: y.name != x.name
    ensures SortedByName(Insert(s, x))
    ensures forall y :: y in Insert(s, x) <==> y in s || y == x
  {
    if s == [] {
    } else if Less(x.name, s[0].name) {
      forall i | 0 < i < |s| ensures Less(x.name, s[i].name) { LessTransitive(x.name, s[0].name, s[i].name); }
    } else {
      assert s[0] in s;
      LessTotal(x.name, s[0].name);
      InsertSorts(s[1..], x);
      var tail := Insert(s[1..], x);
      assert s == [s[0]] + s[1..];
      forall i | 0 <= i < |tail| ensures Less(s[0].name, tail[i].name) {
        assert tail[i] in tail;
        if tail[i] != x {
          var k :| 0 <= k < |s[1..]| && s[1..][k] == tail[i];
          assert s[k + 1] == tail[i];
        }
      }
    }
  }

  /** The maps of the first loop, after a prefix of the list. */
  ghost predicate Tracks(scripts: seq<ScriptInfo>, latest: map<string, ScriptInfo>, latestVersion: map<string, nat>) {
    && latestVersion.Keys == latest.Keys
    && (forall n | n in latest :: latest[n].name == n && latestVersion[n] == Number(latest[n]))
    && forall n :: Chosen(scripts, n, if n in latest then Some(latest[n]) else None)
  }

  lemma TrackNext(scripts: seq<ScriptInfo>, latest: map<string, ScriptInfo>, latestVersion: map<string, nat>,
                  info: ScriptInfo)
    requires Tracks(scripts, latest, latestVersion)
    ensures info.name in latest ==> info.name in latestVersion && latestVersion[info.name] == Number(latest[info.name])
    ensures var better := info.name !in latest || Number(info) > latestVersion[info.name];
      if better then Tracks(scripts + [info], latest[info.name := info], latestVersion[info.name := Number(info)])
      else Tracks(scripts + [info], latest, latestVersion)
  {
    hide Number, Chosen;
    forall n
      ensures var c := if n in latest then Some(latest[n]) else None;
              var better := info.name == n && (c.None? || Number(info) > Number(c.value));
              Chosen(scripts + [info], n, if better then Some(info) else c)
    {
      ChooseNext(scripts, n, if n in latest then Some(latest[n]) else None, info);
    }
  }

  /** The second loop: the entries of all names but those left are in place. */
  ghost predicate Sorts(latest: map<string, ScriptInfo>, names: set<string>, result: seq<ScriptInfo>) {
    && names <= latest.Keys && SortedByName(result)
    && forall r :: r in result <==> r.name in latest && r.name !in names && r == latest[r.name]
  }

  lemma SortNext(latest: map<string, ScriptInfo>, names: set<string>, result: seq<ScriptInfo>, n: string)
    requires Sorts(latest, names, result) && n in names && forall m | m in latest :: latest[m].name == m
    ensures n in latest && Sorts(latest, names - {n}, Insert(result, latest[n]))
  {
    hide Insert, SortedByName;
    InsertSorts(result, latest[n]);
  }

  lemma AllSorted(scripts: seq<ScriptInfo>, latest: map<string, ScriptInfo>, latestVersion: map<string, nat>,
                  result: seq<ScriptInfo>)
    requires Tracks(scripts, latest, latestVersion) && Sorts(latest, {}, result)
    ensures SortedByName(result)
    ensures forall r | r in result :: Chosen(scripts, r.name, Some(r))
    ensures forall s | s in scripts :: exists r :: r in result && r.name == s.name
  {
    hide Number, SortedByName;
    forall s | s in scripts ensures exists r :: r in result && r.name == s.name {
      assert Chosen(scripts, s.name, if s.name in latest then Some(latest[s.name]) else None);
      assert latest[s.name] in result;
    }
  }

  /** Sorted, one entry per name of the list, and each the one that LatestScript selects. */
  method SelectLatestScripts(scripts: seq<ScriptInfo>) returns (result: seq<ScriptInfo>)
    ensures SortedByName(result)
    ensures forall r | r in result :: Chosen(scripts, r.name, Some(r))
    ensures forall s | s in scripts :: exists r :: r in result && r.name == s.name
  {
    var latest: map<string, ScriptInfo>, latestVersion: map<string, nat> := map[], map[];
    assert Tracks([], latest, latestVersion);
    hide Number, Chosen, Tracks;
    assert scripts[..0] == [];
    for k := 0 to |scripts|
      invariant Tracks(scripts[..k], latest, latestVersion)
    {
      var info := scripts[k];
      assert scripts[..k + 1] == scripts[..k] + [info];
      TrackNext(scripts[..k], latest, latestVersion, info);
      if info.name !in latest || Number(info) > latestVersion[info.name] {
        latestVersion := latestVersion[info.name := Number(info)];
        latest := latest[info.name := info];
      }
    }
    assert scripts[..|scripts|] == scripts;
    result := [];
    var names := latest.Keys;
    assert Sorts(latest, names, result);
    hide Sorts, Insert;
    NamesMatch(scripts, latest, latestVersion);
    while names != {}
      invariant Sorts(latest, names, result)
    {
      var n :| n in names;
      SortNext(latest, names, result, n);
      result := Insert(result, latest[n]);
      names := names - {n};
    }
    AllSorted(scripts, latest, latestVersion, result);
  }

  lemma NamesMatch(scripts: seq<ScriptInfo>, latest: map<string, ScriptInfo>, latestVersion: map<string, nat>)
    requires Tracks(scripts, latest, latestVersion)
    ensures forall m | m in latest :: latest[m].name == m
  {
  }

  // ---------------------------------------------------------------- installing

  function InstallFilename(name: string, version: string): string {
    if Trim(version) == "" then name + ".stary" else name + "_" + version + ".stary"
  }

  /** Accepts a version only if its number exceeds every installed one of that name. */
  method EnsureNewerVersion(existing: seq<ScriptInfo>, name: string, version: string) returns (accepted: bool)
    ensures accepted <==> Newer(existing, name, version)
  {
    var versionNumber := ParseVersionNumber(version);
    if versionNumber.None? {
      return false;
    }
    var maxVersion, found := MaxVersion(existing, name);
    hide ParseVersionNumber;
    accepted := !(found && versionNumber.value <= maxVersion);
  }

  ghost predicate Newer(existing: seq<ScriptInfo>, name: string, version: string) {
    && ParseVersionNumber(version).Some?
    && forall s | s in existing && s.name == name :: Number(s) < ParseVersionNumber(version).value
  }

  /** `scripts` is a listing of the script files, in any order. */
  ghost predicate Lists(files: map<string, ScriptInfo>, scripts: seq<ScriptInfo>) {
    && (forall s | s in scripts :: s.path in files && files[s.path] == s)
    && (forall p | p in files :: files[p] in scripts && files[p].path == p)
    && (forall i, j | 0 <= i < j < |scripts| :: scripts[i].path != scripts[j].path)
  }

  function Installed(dir: string, name: string, version: string): ScriptInfo {
    ScriptInfo(name, version, dir + "/" + InstallFilename(name, version))
  }

  /** After an accepted install every listing selects the new script for its name. */
  lemma InstalledIsChosen(files: map<string, ScriptInfo>, existing: seq<ScriptInfo>, dir: string, name: string,
                          version: string, listing: seq<ScriptInfo>)
    requires Lists(files, existing) && Newer(existing, name, version)
    requires var s := Installed(dir, name, version); Lists(files[s.path := s], listing)
    ensures Chosen(listing, name, Some(Installed(dir, name, version)))
  {
    var s := Installed(dir, name, version);
    var after := files[s.path := s];
    assert s.name == name && Number(s) == ParseVersionNumber(version).value;
    hide ParseVersionNumber, Number, Installed;
    assert after[s.path] in listing;
    var i: nat :| i < |listing| && listing[i] == s;
    forall j: nat | j < |listing| && j != i && listing[j].name == name ensures Number(listing[j]) < Number(s) {
      var t := listing[j];
      assert t in listing && t.path != s.path;
      assert files[t.path] in existing;
    }
    assert IsLatest(listing, name, i);
  }

  /** File names do not determine name and version: an accepted install loses a script of
      another name exactly when that script holds the file name. */
  lemma InstallKeepsOthers(files: map<string, ScriptInfo>, existing: seq<ScriptInfo>, dir: string, name: string,
                           version: string, listing: seq<ScriptInfo>)
    requires Lists(files, existing)
    requires var s := Installed(dir, name, version); Lists(files[s.path := s], listing)
    ensures var path := Installed(dir, name, version).path;
      (forall t | t in existing && t.name != name :: t in listing) <==> !(path in files && files[path].name != name)
  {
    var s := Installed(dir, name, version);
    var after := files[s.path := s];
    assert s.name == name;
    hide Installed;
    forall t | t in existing && t.name != name && t.path != s.path ensures t in listing {
      assert after[t.path] == t;
    }
    if s.path in files && files[s.path].name != name {
      assert files[s.path] in existing && files[s.path] !in listing;
    }
  }

  /** The file names: with the version if there is one. */
  lemma FileNames(name: string, version: string)
    ensures Trim(version) == "" ==> InstallFilename(name, version) == name + ".stary"
    ensures Trim(version) != "" ==> InstallFilename(name, version) == name + "_" + version + ".stary"
  {
  }

  /** Such a pair of scripts. */
  lemma SharedFilename()
    ensures InstallFilename("a", "1") == InstallFilename("a_1", "")
  {
    assert TrimLeft("1") == "1" && TrimLeft("") == "";
  }

  lemma FirstNumbers()
    ensures ParseVersionNumber("") == Some(0) && ParseVersionNumber("1") == Some(1)
  {
    TrimWord("1");
    assert Trim("") == "";
  }

  /** And the loss: two installs, both accepted, and no listing has the first script. */
  lemma OverwritesOther(dir: string, listing: seq<ScriptInfo>)
    requires var s, t := Installed(dir, "a_1", ""), Installed(dir, "a", "1");
      Lists(map[s.path := s][t.path := t], listing)
    ensures var s := Installed(dir, "a_1", "");
      Newer([], "a_1", "") && Lists(map[s.path := s], [s]) && Newer([s], "a", "1")
    ensures forall x | x in listing :: x.name != "a_1"
  {
    hide InstallFilename, ParseVersionNumber, Trim;
    SharedFilename();
    FirstNumbers();
  }
}
