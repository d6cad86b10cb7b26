/** The gps.conf reader of gps/utils/loc_cfg.cpp and its in-place trim. */
module Config {
  import opened Common

  const LOC_MAX_PARAM_STRING := 80

  /** Text without a terminator inside: what a C string can hold. */
  type Text = s: string | '\0' !in s witness ""

  predicate IsSpace(c: char) {
    c == ' ' || 9 <= c as int <= 13
  }

  // ----- trim_space

  /** The C string at the start of a buffer. */
  function CStr(buf: string): (s: Text)
    ensures s <= buf
    ensures |s| < |buf| ==> buf[|s|] == '\0'
    ensures |s| == |buf| ==> '\0' !in buf
  {
    if buf == "" || buf[0] == '\0' then "" else [buf[0]] + CStr(buf[1..])
  }

  lemma {:induction false} CStrIs(buf: string, s: Text)
    requires s < buf && buf[|s|] == '\0'
    ensures CStr(buf) == s
  {
  }

  /** Where the first non-blank is, |s| if there is none. */
  function First(s: string): (i: nat)
    ensures i <= |s| && (i < |s| ==> !IsSpace(s[i]))
    ensures forall k :: 0 <= k < i ==> IsSpace(s[k])
  {
    if s == "" || !IsSpace(s[0]) then 0 else 1 + First(s[1..])
  }

  /** Where the last non-blank ends, 0 if there is none. */
  function Last(s: string): (j: nat)
    ensures j <= |s| && (j > 0 ==> !IsSpace(s[j - 1]))
    ensures forall k :: j <= k < |s| ==> IsSpace(s[k])
  {
    if s == "" || !IsSpace(s[|s| - 1]) then |s| else Last(s[..|s| - 1])
  }

  predicate Blank(s: string) {
    First(s) == |s|
  }

  /** From the first to the last non-blank; an all-blank string stays as it is. */
  function Trim(s: Text): (t: Text)
    ensures Blank(s) ==> t == s
    ensures !Blank(s) ==>
      && First(s) < Last(s) && t == s[First(s)..Last(s)]
      && !IsSpace(t[0]) && !IsSpace(t[|t| - 1])
  {
    if Blank(s) then s else s[First(s)..Last(s)]
  }

  method TrimSpace(text: array<char>)
    requires '\0' in text[..]
    modifies text
    ensures '\0' in text[..] && CStr(text[..]) == Trim(old(CStr(text[..])))
  {
    ghost var s := CStr(text[..]);
    assert |s| < text.Length;
    ghost var e;
    var lastNonspace;
    lastNonspace, e := Compact(text, s, First(s));
    if lastNonspace.Some? {
      TrimIs(s, e);
      text[lastNonspace.value] := '\0';
      assert text[..lastNonspace.value] == s[First(s)..][..lastNonspace.value] == Trim(s);
      CStrIs(text[..], Trim(s));
    }
  }

  /** The end of the last non-blank is where nothing but blanks follows. */
  lemma TrimIs(s: Text, e: nat)
    requires First(s) < e <= |s| && !IsSpace(s[e - 1]) && forall k :: e <= k < |s| ==> IsSpace(s[k])
    ensures Last(s) == e && Trim(s) == s[First(s)..e]
  {
  }

  /**
   * The loop of `trim_space`: moves everything from the first non-blank, at `f`, to the front, and gives the
   * place just after the last non-blank, which was at `e` before the move.
   */
  method Compact(text: array<char>, ghost s: string, ghost f: nat)
    returns (lastNonspace: Option<nat>, ghost e: nat)
    requires |s| < text.Length && text[..|s|] == s && text[|s|] == '\0' && '\0' !in s
    requires f <= |s| && (f < |s| ==> !IsSpace(s[f])) && forall k :: 0 <= k < f ==> IsSpace(s[k])
    modifies text
    ensures f == |s| ==> lastNonspace == None && text[..] == old(text[..])
    ensures f < |s| ==>
      && f < e <= |s| && lastNonspace == Some(e - f)
      && !IsSpace(s[e - 1]) && (forall k :: e <= k < |s| ==> IsSpace(s[k]))
      && text[..|s| - f] == s[f..]
  {
    hide IsSpace;
    var scan, write := 0, 0;
    var firstNonspace: Option<nat> := None;
    lastNonspace, e := None, 0;
    assert forall k :: 0 <= k < |s| ==> text[k] == text[..|s|][k];
    while text[scan] != '\0'
      invariant 0 <= scan <= |s| && write == if scan <= f then 0 else scan - f
      invariant text[|s|] == '\0' && forall k :: scan <= k < |s| ==> text[k] == s[k]
      invariant scan <= f ==> firstNonspace == lastNonspace == None && text[..] == old(text[..])
      invariant scan > f ==> firstNonspace == Some(f) && text[..write] == s[f..scan]
      invariant scan > f ==> f < e <= scan && lastNonspace == Some(e - f) && !IsSpace(s[e - 1])
      invariant forall k :: e <= k < scan ==> IsSpace(s[k])
      decreases |s| - scan
    {
      if !IsSpace(text[scan]) && firstNonspace.None? {
        firstNonspace := Some(scan);
      }
      if firstNonspace.Some? {
        MoveChar(text, scan, write, s, f);
        write := write + 1;
        if !IsSpace(text[write - 1]) {
          lastNonspace := Some(write);
          e := scan + 1;
        }
      }
      scan := scan + 1;
    }
    assert s[f..|s|] == s[f..];
  }

  /** One more character of `s`, from position `f` on, has arrived at the front. */
  method MoveChar(a: array<char>, from: nat, to: nat, ghost s: string, ghost f: nat)
    requires f <= from < |s| && from < a.Length && to == from - f
    requires a[from] == s[from] && a[..to] == s[f..from]
    modifies a
    ensures a[..to + 1] == s[f..from + 1]
    ensures forall k :: from < k < a.Length ==> a[k] == old(a[k])
  {
    a[to] := a[from];
    assert s[f..from + 1] == s[f..from] + [s[from]];
  }

  /** The trim of a string that is not in a buffer of its own. */
  method TrimText(s: Text) returns (t: Text)
    ensures t == Trim(s)
  {
    var buf := new char[|s| + 1](i requires 0 <= i <= |s| => if i < |s| then s[i] else '\0');
    assert buf[..|s|] == s && buf[|s|] == '\0';
    CStrIs(buf[..], s);
    TrimSpace(buf);
    ghost var c := CStr(buf[..]);
    t := ReadCStr(buf);
  }

  method ReadCStr(buf: array<char>) returns (t: Text)
    requires '\0' in buf[..]
    ensures t == CStr(buf[..])
  {
    ghost var s := CStr(buf[..]);
    var n := 0;
    while buf[n] != '\0'
      invariant 0 <= n <= |s|
      decreases |s| - n
    {
      assert n < |s| ==> buf[n] == s[n];
      n := n + 1;
    }
    t := buf[..n];
  }

  // ----- lines

  function SkipEquals(s: Text): (r: Text)
    ensures |r| <= |s| && (r != "" ==> r[0] != '=')
  {
    if s != "" && s[0] == '=' then SkipEquals(s[1..]) else s
  }

  function UpToEquals(s: Text): (r: Text)
    ensures r <= s && '=' !in r && (|r| < |s| ==> s[|r|] == '=')
  {
    if s == "" || s[0] == '=' then "" else [s[0]] + UpToEquals(s[1..])
  }

  /** The first two tokens strtok_r finds between `=` signs; a line without two of them is skipped. */
  function Split(line: Text): Option<(Text, Text)> {
    var first := SkipEquals(line);
    var name := UpToEquals(first);
    var second := SkipEquals(first[|name|..]);
    if first == "" || second == "" then None else Some((name, UpToEquals(second)))
  }

  /** `loc_param_v_type`. */
  datatype ParamValue = ParamValue(name: Text, str: Text, number: int, floating: real)

  /** The library's text-to-number conversions. */
  datatype Libc = Libc(strtol16: Text -> int, atoi: Text -> int, atof: Text -> real)

  predicate IsHex(v: Text) {
    |v| >= 2 && v[0] == '0' && (v[1] == 'x' || v[1] == 'X')
  }

  function Assignment(line: Text, libc: Libc): Option<ParamValue> {
    match Split(line)
    case None => None
    case Some((n, v)) =>
      var v := Trim(v);
      Some(if IsHex(v) then ParamValue(Trim(n), v, libc.strtol16(v[2..]), 0.0)
           else ParamValue(Trim(n), v, libc.atoi(v), libc.atof(v)))
  }

  // ----- the table

  datatype Value = Str(s: Text) | Num(n: int) | Float(r: real)

  /** `loc_param_s_type` with the storage it points to; every entry has storage of its own. */
  class Param {
    const name: Text
    const kind: char
    const hasStorage: bool
    const hasSet: bool
    var value: Value
    var isSet: int

    constructor (name: Text, kind: char, hasStorage: bool, hasSet: bool, value: Value, isSet: int)
      ensures this.name == name && this.kind == kind && this.hasStorage == hasStorage && this.hasSet == hasSet
      ensures this.value == value && this.isSet == isSet
    {
      this.name, this.kind, this.hasStorage, this.hasSet := name, kind, hasStorage, hasSet;
      this.value, this.isSet := value, isSet;
    }
  }

  predicate Typed(p: Param) {
    p.hasStorage && (p.kind == 's' || p.kind == 'n' || p.kind == 'f')
  }

  /** What an entry of this type stores. */
  function Stored(kind: char, v: ParamValue): Value {
    if kind == 's' then Str(if v.str == "NULL" then "" else v.str[..Min(|v.str|, LOC_MAX_PARAM_STRING)])
    else if kind == 'n' then Num(v.number)
    else Float(v.floating)
  }

  /** What the lines assign, None for a line that is skipped. */
  function Assignments(lines: seq<Text>, libc: Libc): (vs: seq<Option<ParamValue>>)
    ensures |vs| == |lines|
  {
    seq(|lines|, i requires 0 <= i < |lines| => Assignment(lines[i], libc))
  }

  predicate Names(v: Option<ParamValue>, name: Text) {
    v.Some? && v.value.name == name
  }

  /** The last line that assigns to this name, |vs| if there is none. */
  function LastFor(vs: seq<Option<ParamValue>>, name: Text): (k: nat)
    ensures k <= |vs| && (k < |vs| ==> Names(vs[k], name))
  {
    if vs == [] then 0
    else if Names(vs[|vs| - 1], name) then |vs| - 1
    else
      var k := LastFor(vs[..|vs| - 1], name);
      if k == |vs| - 1 then |vs| else k
  }

  /** It is the last such line, and there is none only if no line assigns to the name. */
  lemma {:induction false} LastForIsLast(vs: seq<Option<ParamValue>>, name: Text)
    ensures var k := LastFor(vs, name);
      if k == |vs| then forall i :: 0 <= i < |vs| ==> !Names(vs[i], name)
      else Names(vs[k], name) && forall i :: k < i < |vs| ==> !Names(vs[i], name)
  {
    if vs != [] {
      LastForIsLast(vs[..|vs| - 1], name);
    }
  }

  /** What an entry holds after these lines, having held `before`. */
  function ValueAfter(p: Param, before: Value, vs: seq<Option<ParamValue>>): Value {
    var k := LastFor(vs, p.name);
    if Typed(p) && k < |vs| then Stored(p.kind, vs[k].value) else before
  }

  function SetAfter(p: Param, before: int, vs: seq<Option<ParamValue>>): int {
    if Typed(p) && p.hasSet && LastFor(vs, p.name) < |vs| then 1 else before
  }

  predicate Hits(p: Param, v: Option<ParamValue>) {
    Typed(p) && Names(v, p.name)
  }

  lemma OneMore(p: Param, before: Value, isSet: int, vs: seq<Option<ParamValue>>, v: Option<ParamValue>)
    ensures ValueAfter(p, before, vs + [v]) == if Hits(p, v) then Stored(p.kind, v.value) else ValueAfter(p, before, vs)
    ensures SetAfter(p, isSet, vs + [v]) == if Hits(p, v) && p.hasSet then 1 else SetAfter(p, isSet, vs)
  {
  }

  method SetConfigEntry(p: Param, v: ParamValue)
    modifies p
    ensures p.value == if Typed(p) && p.name == v.name then Stored(p.kind, v) else old(p.value)
    ensures p.isSet == if Typed(p) && p.name == v.name && p.hasSet then 1 else old(p.isSet)
  {
    if p.name == v.name && p.hasStorage {
      match p.kind {
        case 's' =>
          p.value := Str(if v.str == "NULL" then "" else v.str[..Min(|v.str|, LOC_MAX_PARAM_STRING)]);
          if p.hasSet { p.isSet := 1; }
        case 'n' =>
          p.value := Num(v.number);
          if p.hasSet { p.isSet := 1; }
        case 'f' =>
          p.value := Float(v.floating);
          if p.hasSet { p.isSet := 1; }
        case _ =>
      }
    }
  }

  ghost predicate Separate(table: seq<Param>) {
    forall i, j :: 0 <= i < j < |table| ==> table[i] != table[j]
  }

  /** One line against every entry of one table. */
  method SetConfigEntries(table: seq<Param>, v: ParamValue)
    requires Separate(table)
    modifies table
    ensures forall i :: 0 <= i < |table| ==>
      var p := table[i];
      && p.value == (if Typed(p) && p.name == v.name then Stored(p.kind, v) else old(p.value))
      && p.isSet == (if Typed(p) && p.name == v.name && p.hasSet then 1 else old(p.isSet))
  {
    for i := 0 to |table|
      invariant forall j :: 0 <= j < i ==>
        var p := table[j];
        && p.value == (if Typed(p) && p.name == v.name then Stored(p.kind, v) else old(p.value))
        && p.isSet == (if Typed(p) && p.name == v.name && p.hasSet then 1 else old(p.isSet))
      invariant forall j :: i <= j < |table| ==> table[j].value == old(table[j].value) && table[j].isSet == old(table[j].isSet)
    {
      SetConfigEntry(table[i], v);
    }
  }

  /** Splits, trims and converts one line. */
  method ParseLine(line: Text, libc: Libc) returns (v: Option<ParamValue>)
    ensures v == Assignment(line, libc)
  {
    match Split(line) {
      case None => v := None;
      case Some((n, s)) =>
        var name := TrimText(n);
        var str := TrimText(s);
        if IsHex(str) {
          v := Some(ParamValue(name, str, libc.strtol16(str[2..]), 0.0));
        } else {
          v := Some(ParamValue(name, str, libc.atoi(str), libc.atof(str)));
        }
    }
  }

  /** One line against both tables. */
  method ApplyLine(table: seq<Param>, own: seq<Param>, v: Option<ParamValue>)
    requires Separate(table + own)
    modifies table, own
    ensures forall p :: p in table + own ==>
      && p.value == (if Hits(p, v) then Stored(p.kind, v.value) else old(p.value))
      && p.isSet == (if Hits(p, v) && p.hasSet then 1 else old(p.isSet))
  {
    SeparateParts(table, own);
    if v.Some? {
      SetConfigEntries(table, v.value);
      SetConfigEntries(own, v.value);
    }
  }

  lemma SeparateParts(table: seq<Param>, own: seq<Param>)
    requires Separate(table + own)
    ensures Separate(table) && Separate(own) && forall i, j :: 0 <= i < |table| && 0 <= j < |own| ==> table[i] != own[j]
  {
    var all := table + own;
    assert forall i :: 0 <= i < |table| ==> table[i] == all[i];
    assert forall j :: 0 <= j < |own| ==> own[j] == all[|table| + j];
  }

  lemma AssignmentsMore(lines: seq<Text>, k: nat, libc: Libc)
    requires k < |lines|
    ensures Assignments(lines[..k + 1], libc) == Assignments(lines[..k], libc) + [Assignment(lines[k], libc)]
  {
  }

  lemma NoLines(table: seq<Param>)
    ensures forall p: Param, before :: p in table ==> ValueAfter(p, before, []) == before
    ensures forall p: Param, isSet :: p in table ==> SetAfter(p, isSet, []) == isSet
  {
  }

  method ReadLines(lines: seq<Text>, table: seq<Param>, own: seq<Param>, libc: Libc)
    requires Separate(table + own)
    modifies table, own
    ensures var vs := Assignments(lines, libc);
      forall p :: p in table + own ==>
        p.value == ValueAfter(p, old(p.value), vs) && p.isSet == SetAfter(p, old(p.isSet), vs)
  {
    hide Assignment, ValueAfter, SetAfter, Stored, LastFor;
    ghost var vs: seq<Option<ParamValue>> := [];
    NoLines(table + own);
    for k := 0 to |lines|
      invariant vs == Assignments(lines[..k], libc)
      invariant forall p :: p in table + own ==>
        p.value == ValueAfter(p, old(p.value), vs) && p.isSet == SetAfter(p, old(p.isSet), vs)
    {
      var v := ParseLine(lines[k], libc);
      AssignmentsMore(lines, k, libc);
      forall p | p in table + own
        ensures ValueAfter(p, old(p.value), vs + [v]) == if Hits(p, v) then Stored(p.kind, v.value) else p.value
        ensures SetAfter(p, old(p.isSet), vs + [v]) == if Hits(p, v) && p.hasSet then 1 else p.isSet
      {
        OneMore(p, old(p.value), old(p.isSet), vs, v);
      }
      ApplyLine(table, own, v);
      vs := vs + [v];
    }
    assert lines[..|lines|] == lines;
  }

  /**
   * `loc_read_conf`. The caller's `table` and the file's own two entries are read from the same lines; `file` is
   * None when the file cannot be opened.
   */
  method ReadConf(file: Option<seq<Text>>, table: seq<Param>, own: seq<Param>, libc: Libc)
    requires Separate(table + own) && |own| == 2
    modifies table, own
    ensures file.None? ==> forall p :: p in table ==> p.value == old(p.value) && p.isSet == old(p.isSet)
    ensures file.Some? ==> forall p :: p in table ==>
      var vs := Assignments(file.value, libc);
      && p.value == ValueAfter(p, old(p.value), vs)
      && p.isSet == SetAfter(p, if p.hasSet then 0 else old(p.isSet), vs)
    ensures var vs := if file.Some? then Assignments(file.value, libc) else [];
      && own[0].value == ValueAfter(own[0], Num(3), vs)
      && own[1].value == ValueAfter(own[1], Num(0), vs)
  {
    SeparateParts(table, own);
    own[0].value := Num(3);
    own[1].value := Num(0);
    if file.Some? {
      ClearSet(table);
      assert own[0] in table + own && own[1] in table + own;
      assert forall p :: p in table ==> p in table + own;
      ReadLines(file.value, table, own, libc);
    }
  }

  /** Clears all validity bits. */
  method ClearSet(table: seq<Param>)
    requires Separate(table)
    modifies table
    ensures forall p :: p in table ==> p.value == old(p.value) && p.isSet == if p.hasSet then 0 else old(p.isSet)
  {
    for i := 0 to |table|
      invariant forall j :: 0 <= j < |table| ==> table[j].value == old(table[j].value)
      invariant forall j :: 0 <= j < |table| ==>
        table[j].isSet == if j < i && table[j].hasSet then 0 else old(table[j].isSet)
    {
      if table[i].hasSet {
        table[i].isSet := 0;
      }
    }
  }
}
