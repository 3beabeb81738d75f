/** STORAGE_ENABLED_PLUGINS: a comma-separated list, pkg/config/config.go. */
module PluginList {
  import opened Strings

  /** unicode.IsSpace. */
  predicate IsSpace(c: char) {
    || '\t' <= c <= '\r' || c == ' ' || c == '\U{85}' || c == '\U{A0}' || c == '\U{1680}'
    || '\U{2000}' <= c <= '\U{200A}' || c == '\U{2028}' || c == '\U{2029}'
    || c == '\U{202F}' || c == '\U{205F}' || c == '\U{3000}'
  }

  function TrimLeft(s: string): string {
    if s != "" && IsSpace(s[0]) then TrimLeft(s[1..]) else s
  }

  function TrimRight(s: string): string {
    if s != "" && IsSpace(s[|s| - 1]) then TrimRight(s[..|s| - 1]) else s
  }

  /** strings.TrimSpace. */
  function TrimSpace(s: string): string {
    TrimRight(TrimLeft(s))
  }

  /** Trimmed, non-empty parts, in order. */
  function Names(parts: seq<string>): seq<string> {
    if parts == [] then []
    else
      var name := TrimSpace(parts[|parts| - 1]);
      Names(parts[..|parts| - 1]) + (if name != "" then [name] else [])
  }

  function EnabledPlugins(s: string): seq<string> {
    Names(Split(s, ','))
  }

  /** A name that survives: not empty, no outer space, no comma. */
  ghost predicate Clean(name: string) {
    && name != "" && !IsSpace(name[0]) && !IsSpace(name[|name| - 1])
    && ',' !in name
  }

  ghost predicate Blank(s: string) {
    forall i :: 0 <= i < |s| ==> IsSpace(s[i])
  }

  /** `t` is `s` without its outer space. */
  ghost predicate Trimmed(s: string, t: string) {
    && (t == "" || (!IsSpace(t[0]) && !IsSpace(t[|t| - 1])))
    && exists left, right :: Blank(left) && Blank(right) && s == left + t + right
  }

  /** `names` are the parts at the positions `at`, in order and trimmed, and all other
      parts are blank. */
  ghost predicate Picks(at: seq<nat>, parts: seq<string>, names: seq<string>) {
    && |at| == |names|
    && (forall k :: 0 <= k < |at| ==> at[k] < |parts| && Trimmed(parts[at[k]], names[k]) && names[k] != "")
    && (forall j, k :: 0 <= j < k < |at| ==> at[j] < at[k])
    && (forall i :: 0 <= i < |parts| && i !in at ==> Blank(parts[i]))
  }

  /** The names are exactly the comma-separated parts that are not blank, in order, each
      without its outer space; so every one is clean. */
  method GetEnabledPlugins(enabledPlugins: string) returns (names: seq<string>)
    ensures exists parts, at ::
      && parts != [] && Join(parts, ",") == enabledPlugins
      && (forall i :: 0 <= i < |parts| ==> ',' !in parts[i])
      && Picks(at, parts, names)
    ensures forall k :: 0 <= k < |names| ==> Clean(names[k])
    ensures names == EnabledPlugins(enabledPlugins)
  {
    names := [];
    var parts := Split(enabledPlugins, ',');
    ghost var at: seq<nat> := [];
    assert parts[..0] == [] && parts[..|parts|] == parts;
    JoinOfSplit(enabledPlugins, ',');
    OutputIsClean(enabledPlugins);
    assert Picks(at, parts[..0], names) && Names(parts[..0]) == names;
    assert EnabledPlugins(enabledPlugins) == Names(parts);
    hide *;
    for i := 0 to |parts|
      invariant names == Names(parts[..i])
      invariant Picks(at, parts[..i], names)
    {
      OnePart(at, parts, i, names);
      var name := TrimSpace(parts[i]);
      if name != "" {
        names := names + [name];
        at := at + [i];
      }
    }
  }

  /** One turn of the loop. */
  lemma OnePart(at: seq<nat>, parts: seq<string>, i: nat, names: seq<string>)
    requires i < |parts| && names == Names(parts[..i]) && Picks(at, parts[..i], names)
    ensures
      var name := TrimSpace(parts[i]);
      if name != "" then
        Names(parts[..i + 1]) == names + [name] && Picks(at + [i], parts[..i + 1], names + [name])
      else
        Names(parts[..i + 1]) == names && Picks(at, parts[..i + 1], names)
  {
    var name := TrimSpace(parts[i]);
    TrimSpaceTrims(parts[i]);
    assert parts[..i + 1][..i] == parts[..i] && parts[..i + 1][i] == parts[i];
    assert Names(parts[..i + 1]) == names + (if name != "" then [name] else []);
    hide Names, TrimSpace, Trimmed, Blank, Picks;
    if name != "" {
      PickLast(at, parts[..i + 1], names, name);
    } else {
      SkipLast(at, parts[..i + 1], names);
    }
  }

  lemma PickLast(at: seq<nat>, parts: seq<string>, names: seq<string>, name: string)
    requires parts != [] && Picks(at, parts[..|parts| - 1], names)
    requires Trimmed(parts[|parts| - 1], name) && name != ""
    ensures Picks(at + [|parts| - 1], parts, names + [name])
  {
    hide Trimmed, Blank;
    var at' := at + [|parts| - 1];
    assert forall i :: 0 <= i < |parts| && i !in at' ==> i < |parts| - 1 && i !in at;
    assert forall i :: 0 <= i < |parts| - 1 ==> parts[..|parts| - 1][i] == parts[i];
  }

  lemma SkipLast(at: seq<nat>, parts: seq<string>, names: seq<string>)
    requires parts != [] && Picks(at, parts[..|parts| - 1], names) && Trimmed(parts[|parts| - 1], "")
    ensures Picks(at, parts, names)
  {
    var last := parts[|parts| - 1];
    assert Blank(last);
    hide Trimmed, Blank;
    assert forall i :: 0 <= i < |parts| - 1 ==> parts[..|parts| - 1][i] == parts[i];
  }

  lemma {:induction false} TrimLeftDropsBlank(s: string) returns (left: string)
    ensures Blank(left) && s == left + TrimLeft(s)
  {
    if s != "" && IsSpace(s[0]) {
      var rest := TrimLeftDropsBlank(s[1..]);
      left := [s[0]] + rest;
    } else {
      left := "";
    }
  }

  lemma {:induction false} TrimRightDropsBlank(s: string) returns (right: string)
    ensures Blank(right) && s == TrimRight(s) + right
  {
    if s != "" && IsSpace(s[|s| - 1]) {
      var rest := TrimRightDropsBlank(s[..|s| - 1]);
      right := rest + [s[|s| - 1]];
    } else {
      right := "";
    }
  }

  /** TrimSpace removes outer space, all of it, and nothing else. */
  lemma TrimSpaceTrims(s: string)
    ensures Trimmed(s, TrimSpace(s))
  {
    var left := TrimLeftDropsBlank(s);
    var right := TrimRightDropsBlank(TrimLeft(s));
    TrimLeftTrims(s);
    TrimRightTrims(TrimLeft(s));
    assert s == left + TrimSpace(s) + right;
  }

  lemma {:induction false} TrimLeftTrims(s: string)
    ensures TrimLeft(s) == "" || !IsSpace(TrimLeft(s)[0])
    ensures forall c :: c in TrimLeft(s) ==> c in s
  {
    if s != "" && IsSpace(s[0]) {
      TrimLeftTrims(s[1..]);
    }
  }

  lemma {:induction false} TrimRightTrims(s: string)
    ensures TrimRight(s) == "" || (!IsSpace(TrimRight(s)[|TrimRight(s)| - 1]) && s != "" && TrimRight(s)[0] == s[0])
    ensures forall c :: c in TrimRight(s) ==> c in s
  {
    if s != "" && IsSpace(s[|s| - 1]) {
      TrimRightTrims(s[..|s| - 1]);
    }
  }

  /** Trimming yields the empty string or a string without outer space, made of the
      original's characters; a clean name is left alone. */
  lemma TrimmedIsClean(s: string)
    requires ',' !in s
    ensures TrimSpace(s) == "" || Clean(TrimSpace(s))
    ensures Clean(s) ==> TrimSpace(s) == s
  {
    TrimLeftTrims(s);
    TrimRightTrims(TrimLeft(s));
  }

  lemma {:induction false} NamesAreClean(parts: seq<string>)
    requires forall i :: 0 <= i < |parts| ==> ',' !in parts[i]
    ensures forall i :: 0 <= i < |Names(parts)| ==> Clean(Names(parts)[i])
  {
    if parts != [] {
      NamesAreClean(parts[..|parts| - 1]);
      TrimmedIsClean(parts[|parts| - 1]);
    }
  }

  lemma {:induction false} CleanNamesStay(parts: seq<string>)
    requires forall i :: 0 <= i < |parts| ==> Clean(parts[i])
    ensures Names(parts) == parts
  {
    if parts != [] {
      CleanNamesStay(parts[..|parts| - 1]);
      TrimmedIsClean(parts[|parts| - 1]);
      assert parts == parts[..|parts| - 1] + [parts[|parts| - 1]];
    }
  }

  lemma OutputIsClean(s: string)
    ensures forall i :: 0 <= i < |EnabledPlugins(s)| ==> Clean(EnabledPlugins(s)[i])
  {
    JoinOfSplit(s, ',');
    NamesAreClean(Split(s, ','));
  }

  /** Printing a list of names with commas and parsing it back gives the names, in order,
      if and only if each is non-empty, trimmed and free of commas. */
  lemma ParsePrintRoundTrip(names: seq<string>)
    ensures EnabledPlugins(Join(names, ",")) == names <==> forall i :: 0 <= i < |names| ==> Clean(names[i])
  {
    OutputIsClean(Join(names, ","));
    if forall i :: 0 <= i < |names| ==> Clean(names[i]) {
      if names == [] {
        assert Split("", ',') == [""];
        assert [""][..0] == [];
      } else {
        SplitOfJoin(names, ',');
        CleanNamesStay(names);
      }
    }
  }

  /** Parsing, printing and parsing again changes nothing, for every input. */
  lemma ParseIsIdempotent(s: string)
    ensures EnabledPlugins(Join(EnabledPlugins(s), ",")) == EnabledPlugins(s)
  {
    OutputIsClean(s);
    ParsePrintRoundTrip(EnabledPlugins(s));
  }

  // ---- On concrete characters ----

  /** The characters with the Unicode property White_Space. */
  const WHITE_SPACE :=
    "\t\n\U{0B}\U{0C}\r \U{85}\U{A0}\U{1680}\U{2000}\U{2001}\U{2002}\U{2003}\U{2004}\U{2005}"
    + "\U{2006}\U{2007}\U{2008}\U{2009}\U{200A}\U{2028}\U{2029}\U{202F}\U{205F}\U{3000}"

  lemma SpaceIffListed(c: char)
    ensures IsSpace(c) <==> c in WHITE_SPACE
  {
    var w := WHITE_SPACE;
    assert w[0] == '\t' && w[1] == '\n' && w[2] == '\U{0B}' && w[3] == '\U{0C}' && w[4] == '\r' && w[5] == ' ';
    assert w[6] == '\U{85}' && w[7] == '\U{A0}' && w[8] == '\U{1680}' && w[9] == '\U{2000}' && w[10] == '\U{2001}';
    assert w[11] == '\U{2002}' && w[12] == '\U{2003}' && w[13] == '\U{2004}' && w[14] == '\U{2005}';
    assert w[15] == '\U{2006}' && w[16] == '\U{2007}' && w[17] == '\U{2008}' && w[18] == '\U{2009}';
    assert w[19] == '\U{200A}' && w[20] == '\U{2028}' && w[21] == '\U{2029}' && w[22] == '\U{202F}';
    assert w[23] == '\U{205F}' && w[24] == '\U{3000}';
  }

  /** A name as plugins have them. */
  ghost predicate Ordinary(name: string) {
    && name != ""
    && forall i :: 0 <= i < |name| ==>
         || 'a' <= name[i] <= 'z' || 'A' <= name[i] <= 'Z' || '0' <= name[i] <= '9'
         || name[i] == '-' || name[i] == '_'
  }

  ghost predicate Padding(s: string) {
    forall i :: 0 <= i < |s| ==> s[i] == ' ' || s[i] == '\t' || s[i] == '\n' || s[i] == '\r'
  }

  lemma {:induction false} TrimLeftPadding(left: string, s: string)
    requires Blank(left) && (s == "" || !IsSpace(s[0]))
    ensures TrimLeft(left + s) == s
  {
    if left == "" {
      assert left + s == s;
    } else {
      assert (left + s)[1..] == left[1..] + s;
      TrimLeftPadding(left[1..], s);
    }
  }

  lemma {:induction false} TrimRightPadding(s: string, right: string)
    requires Blank(right) && (s == "" || !IsSpace(s[|s| - 1]))
    ensures TrimRight(s + right) == s
  {
    if right == "" {
      assert s + right == s;
    } else {
      var n := |right| - 1;
      assert (s + right)[..|s + right| - 1] == s + right[..n];
      TrimRightPadding(s, right[..n]);
    }
  }

  lemma TrimPadding(left: string, name: string, right: string)
    requires Padding(left) && Ordinary(name) && Padding(right)
    ensures TrimSpace(left + name + right) == name
    ensures ',' !in left + name + right
  {
    assert Blank(left) && Blank(right) && !IsSpace(name[0]) && !IsSpace(name[|name| - 1]);
    assert left + name + right == left + (name + right);
    TrimLeftPadding(left, name + right);
    TrimRightPadding(name, right);
  }

  ghost predicate PaddedName(part: string, name: string) {
    Ordinary(name) && exists left, right :: Padding(left) && Padding(right) && part == left + name + right
  }

  ghost predicate Padded(parts: seq<string>, names: seq<string>) {
    |parts| == |names| && forall i :: 0 <= i < |names| ==> PaddedName(parts[i], names[i])
  }

  lemma {:induction false} NamesOfPadded(parts: seq<string>, names: seq<string>)
    requires Padded(parts, names)
    ensures Names(parts) == names
    ensures forall i :: 0 <= i < |parts| ==> ',' !in parts[i]
  {
    hide PaddedName, TrimSpace;
    if parts != [] {
      var n := |parts| - 1;
      NamesOfPadded(parts[..n], names[..n]);
      TrimPaddedName(parts[n], names[n]);
      assert names == names[..n] + [names[n]];
    }
  }

  lemma TrimPaddedName(part: string, name: string)
    requires PaddedName(part, name)
    ensures name != "" && TrimSpace(part) == name && ',' !in part
  {
    hide Padding, TrimSpace;
    var left, right :| Padding(left) && Padding(right) && part == left + name + right;
    TrimPadding(left, name, right);
  }

  /** Names made of letters, digits, '-' and '_' come back from the list in order, whatever
      spaces, tabs and line ends surround each of them. */
  lemma OrdinaryNamesComeBack(parts: seq<string>, names: seq<string>)
    requires Padded(parts, names)
    ensures EnabledPlugins(Join(parts, ",")) == names
  {
    hide Padded;
    NamesOfPadded(parts, names);
    if parts == [] {
      assert Split("", ',') == [""];
      assert [""][..0] == [] && TrimSpace("") == "";
    } else {
      SplitOfJoin(parts, ',');
    }
  }

  /** In particular without any. */
  lemma UnpaddedNamesComeBack(names: seq<string>)
    requires forall i :: 0 <= i < |names| ==> Ordinary(names[i])
    ensures EnabledPlugins(Join(names, ",")) == names
  {
    hide Ordinary, EnabledPlugins, PaddedName;
    forall i | 0 <= i < |names|
      ensures PaddedName(names[i], names[i])
    {
      UnpaddedName(names[i]);
    }
    OrdinaryNamesComeBack(names, names);
  }

  lemma UnpaddedName(name: string)
    requires Ordinary(name)
    ensures PaddedName(name, name)
  {
    assert Padding("") && name == "" + name + "";
  }
}
