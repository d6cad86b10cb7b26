/** What a line of gps.conf means, and with it the whole file. */
module ConfigLines {
  import opened Common
  import opened Config

  /** Any number of equals signs. */
  function Eqs(n: nat): (t: Text)
    ensures |t| == n
  {
    seq(n, i => '=')
  }

  /** What may stand on one side of an equals sign. */
  predicate Part(s: string) {
    s != "" && '=' !in s && '\0' !in s
  }

  /** A name and a value with equals signs between them, perhaps before them, and perhaps more after them. */
  ghost predicate Reads(line: Text, n: string, v: string) {
    exists a: nat, b: nat, rest: Text :: Written(line, n, v, a, b, rest)
  }

  ghost predicate Written(line: Text, n: string, v: string, a: nat, b: nat, rest: Text) {
    && Part(n) && Part(v) && b > 0 && (rest != "" ==> rest[0] == '=')
    && line == Eqs(a) + (n + (Eqs(b) + (v + rest)))
  }

  lemma {:induction false} SkipsAll(a: nat, rest: Text)
    requires rest != "" ==> rest[0] != '='
    ensures SkipEquals(Eqs(a) + rest) == rest
  {
    if a == 0 {
      assert Eqs(0) + rest == rest;
    } else {
      assert (Eqs(a) + rest)[1..] == Eqs(a - 1) + rest;
      SkipsAll(a - 1, rest);
    }
  }

  lemma {:induction false} TakesPart(n: string, rest: Text)
    requires '=' !in n && '\0' !in n && (rest != "" ==> rest[0] == '=')
    ensures UpToEquals(n + rest) == n
  {
    if n == "" {
      assert n + rest == rest;
    } else {
      assert (n + rest)[1..] == n[1..] + rest;
      TakesPart(n[1..], rest);
    }
  }

  /** Such a line is read as that name and that value. */
  lemma SplitReads(line: Text, n: string, v: string, a: nat, b: nat, rest: Text)
    requires Written(line, n, v, a, b, rest)
    ensures Split(line) == Some((n, v))
  {
    var second: Text := v + rest;
    var after: Text := Eqs(b) + second;
    var first: Text := n + after;
    assert first[0] == n[0] && n[0] in n;
    SkipsAll(a, first);
    TakesPart(n, after);
    assert first[|n|..] == after;
    assert second[0] == v[0] && v[0] in v;
    SkipsAll(b, second);
    TakesPart(v, rest);
  }

  lemma {:induction false} SkipLeaves(s: Text) returns (a: nat)
    ensures s == Eqs(a) + SkipEquals(s) && (s != "" && s[0] == '=' ==> a > 0)
  {
    if s != "" && s[0] == '=' {
      var k := SkipLeaves(s[1..]);
      a := k + 1;
      assert s == ["="[0]] + s[1..];
      assert Eqs(k + 1) + SkipEquals(s) == ['='] + (Eqs(k) + SkipEquals(s));
    } else {
      a := 0;
      assert Eqs(0) + s == s;
    }
  }

  lemma SplitWritten(line: Text)
    requires Split(line).Some?
    ensures var (n, v) := Split(line).value;
      Reads(line, n, v)
  {
    hide SkipEquals, UpToEquals, Eqs;
    var first := SkipEquals(line);
    var n := UpToEquals(first);
    var after := first[|n|..];
    var second := SkipEquals(after);
    var v := UpToEquals(second);
    var a := SkipLeaves(line);
    var b := SkipLeaves(after);
    var rest: Text := second[|v|..];
    assert second == v + rest && first == n + after;
    assert Written(line, n, v, a, b, rest);
  }

  /** A line is read as a name and a value if and only if it has them: all other lines are skipped. */
  lemma SplitIff(line: Text, n: Text, v: Text)
    ensures Split(line) == Some((n, v)) <==> Reads(line, n, v)
    ensures Split(line) == None <==> forall x: Text, y: Text :: !Reads(line, x, y)
  {
    if Split(line).Some? {
      SplitWritten(line);
    }
    forall x: Text, y: Text | Reads(line, x, y) ensures Split(line) == Some((x, y)) {
      var a: nat, b: nat, rest: Text :| Written(line, x, y, a, b, rest);
      SplitReads(line, x, y, a, b, rest);
    }
  }

  /** Without anything around it. */
  lemma PlainLine(n: Text, v: Text)
    requires Part(n) && Part(v)
    ensures Split(n + "=" + v) == Some((n, v))
  {
    var line: Text := n + "=" + v;
    assert Eqs(1) == "=" && line == Eqs(0) + (n + (Eqs(1) + (v + "")));
    SplitReads(line, n, v, 0, 1, "");
  }

  // ----- what the reader makes of a line

  predicate Hexadecimal(v: Text) {
    "0x" <= v || "0X" <= v
  }

  /** Name and value lose the blanks around them; hexadecimal is a whole number only. */
  lemma LineMeans(line: Text, n: Text, v: Text, libc: Libc)
    requires Reads(line, n, v)
    ensures var t := Trim(v);
      Assignment(line, libc) == Some(
        if Hexadecimal(t) then ParamValue(Trim(n), t, libc.strtol16(t[2..]), 0.0)
        else ParamValue(Trim(n), t, libc.atoi(t), libc.atof(t)))
  {
    SplitIff(line, n, v);
    var t := Trim(v);
    assert IsHex(t) <==> Hexadecimal(t);
  }

  lemma OtherLines(line: Text, libc: Libc)
    requires forall n: Text, v: Text :: !Reads(line, n, v)
    ensures Assignment(line, libc) == None
  {
    SplitIff(line, "", "");
  }

  /** The six characters that isspace accepts. */
  lemma Blanks(c: char)
    ensures IsSpace(c) <==> c == ' ' || c == '\t' || c == '\n' || c == '\r' || c as int == 11 || c as int == 12
  {
  }

  // ----- what the file says

  /** Line `k` is the last that names the entry. */
  ghost predicate LastNaming(lines: seq<Text>, k: nat, n: Text, v: Text, name: Text) {
    && k < |lines| && Reads(lines[k], n, v) && Trim(n) == name
    && forall i, x: Text, y: Text :: k < i < |lines| && Reads(lines[i], x, y) ==> Trim(x) != name
  }

  lemma LastForIs(lines: seq<Text>, k: nat, n: Text, v: Text, name: Text, libc: Libc)
    requires LastNaming(lines, k, n, v, name)
    ensures LastFor(Assignments(lines, libc), name) == k
  {
    var vs := Assignments(lines, libc);
    LineMeans(lines[k], n, v, libc);
    LastForIsLast(vs, name);
    forall i | k < i < |lines| ensures !Names(vs[i], name) {
      if Split(lines[i]).Some? {
        var (x, y) := Split(lines[i]).value;
        SplitIff(lines[i], x, y);
        LineMeans(lines[i], x, y, libc);
      }
    }
    assert Names(vs[k], name);
  }

  lemma NobodyNames(lines: seq<Text>, name: Text, libc: Libc)
    requires forall i, x: Text, y: Text :: 0 <= i < |lines| && Reads(lines[i], x, y) ==> Trim(x) != name
    ensures LastFor(Assignments(lines, libc), name) == |lines|
  {
    var vs := Assignments(lines, libc);
    LastForIsLast(vs, name);
    forall i | 0 <= i < |lines| ensures !Names(vs[i], name) {
      if Split(lines[i]).Some? {
        var (x, y) := Split(lines[i]).value;
        SplitIff(lines[i], x, y);
        LineMeans(lines[i], x, y, libc);
      }
    }
  }

  /**
   * What an entry holds after the file: of the last line that names it, the trimmed value cut to 80 characters, or
   * nothing for NULL, or its number.
   */
  lemma FileSays(lines: seq<Text>, k: nat, n: Text, v: Text, p: Param, before: Value, isSet: int, libc: Libc)
    requires LastNaming(lines, k, n, v, p.name) && p.hasStorage
    ensures var vs := Assignments(lines, libc);
      var t := Trim(v);
      && (p.kind == 's' ==>
            ValueAfter(p, before, vs) == Str(if t == "NULL" then "" else if |t| <= 80 then t else t[..80]))
      && (p.kind == 'n' ==>
            ValueAfter(p, before, vs) == Num(if Hexadecimal(t) then libc.strtol16(t[2..]) else libc.atoi(t)))
      && (p.kind == 'f' ==>
            ValueAfter(p, before, vs) == Float(if Hexadecimal(t) then 0.0 else libc.atof(t)))
      && (if p.kind == 's' || p.kind == 'n' || p.kind == 'f' then p.hasSet ==> SetAfter(p, isSet, vs) == 1
          else ValueAfter(p, before, vs) == before && SetAfter(p, isSet, vs) == isSet)
  {
    hide Trim, Reads, Hexadecimal, Assignment, LastFor;
    LastForIs(lines, k, n, v, p.name, libc);
    LineMeans(lines[k], n, v, libc);
  }

  /** An entry that no line names keeps what it had. */
  lemma FileSilent(lines: seq<Text>, p: Param, before: Value, isSet: int, libc: Libc)
    requires forall i, x: Text, y: Text :: 0 <= i < |lines| && Reads(lines[i], x, y) ==> Trim(x) != p.name
    ensures var vs := Assignments(lines, libc);
      ValueAfter(p, before, vs) == before && SetAfter(p, isSet, vs) == isSet
  {
    NobodyNames(lines, p.name, libc);
  }
}
