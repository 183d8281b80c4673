/**
 * The replication-info reply of a store replica: `key:value` lines separated by
 * CRLF, folded into an object; a replica is the master iff its `role` is `master`.
 */
module ReplicationInfo {
  import opened Common

  /** JavaScript's `String.prototype.split` with a non-empty string separator:
      the segments between non-overlapping occurrences, scanned left to right. */
  function Split(s: string, sep: string): (parts: seq<string>)
    requires |sep| > 0
    ensures |parts| >= 1
    ensures |parts[0]| <= |s| && parts[0] == s[..|parts[0]|]
    decreases |s|
  {
    if |s| < |sep| then [s]
    else if s[..|sep|] == sep then [""] + Split(s[|sep|..], sep)
    else
      var rest := Split(s[1..], sep);
      [[s[0]] + rest[0]] + rest[1..]
  }

  /** JavaScript's `Array.prototype.join`, the inverse of `Split`. */
  function Join(parts: seq<string>, sep: string): string
    requires |parts| >= 1
    decreases |parts|
  {
    if |parts| == 1 then parts[0] else parts[0] + sep + Join(parts[1..], sep)
  }

  lemma JoinConsHead(c: char, parts: seq<string>, sep: string)
    requires |parts| >= 1
    ensures Join([[c] + parts[0]] + parts[1..], sep) == [c] + Join(parts, sep)
  {
    var ps := [[c] + parts[0]] + parts[1..];
    assert ps[1..] == parts[1..];
  }

  /** Splitting loses nothing: joining the segments with the separator gives back the text. */
  lemma {:induction false} SplitJoin(s: string, sep: string)
    requires |sep| > 0
    ensures Join(Split(s, sep), sep) == s
    decreases |s|
  {
    if |s| < |sep| {
    } else if s[..|sep|] == sep {
      var rest := Split(s[|sep|..], sep);
      SplitJoin(s[|sep|..], sep);
      var parts := [""] + rest;
      assert Split(s, sep) == parts;
      assert parts[1..] == rest;
      assert Join(parts, sep) == "" + sep + Join(rest, sep);
      assert s == s[..|sep|] + s[|sep|..];
    } else {
      var rest := Split(s[1..], sep);
      SplitJoin(s[1..], sep);
      assert Split(s, sep) == [[s[0]] + rest[0]] + rest[1..];
      JoinConsHead(s[0], rest, sep);
      assert s == [s[0]] + s[1..];
    }
  }

  /** `sep` occurs in `part` at position `j`. */
  predicate SepAt(part: string, sep: string, j: nat)
  {
    j + |sep| <= |part| && part[j..j + |sep|] == sep
  }

  /** No segment contains the separator: the segments of a CRLF split are whole lines. */
  lemma {:induction false} SplitPartsFree(s: string, sep: string)
    requires |sep| > 0
    ensures forall i, j: nat :: 0 <= i < |Split(s, sep)| ==> !SepAt(Split(s, sep)[i], sep, j)
    decreases |s|
  {
    var parts := Split(s, sep);
    if |s| < |sep| {
      forall j: nat ensures !SepAt(s, sep, j) {
      }
    } else if s[..|sep|] == sep {
      var rest := Split(s[|sep|..], sep);
      SplitPartsFree(s[|sep|..], sep);
      assert parts == [""] + rest;
      forall i, j: nat | 0 <= i < |parts| ensures !SepAt(parts[i], sep, j) {
        if i > 0 {
          assert parts[i] == rest[i - 1];
          assert !SepAt(rest[i - 1], sep, j);
        }
      }
    } else {
      var rest := Split(s[1..], sep);
      SplitPartsFree(s[1..], sep);
      var h := [s[0]] + rest[0];
      assert parts == [h] + rest[1..];
      forall i, j: nat | 0 <= i < |parts| ensures !SepAt(parts[i], sep, j) {
        if i == 0 && j + |sep| <= |h| {
          if j == 0 {
            assert h == s[..|h|];
            assert h[..|sep|] == s[..|sep|];
          } else {
            assert h[j..j + |sep|] == rest[0][j - 1..j - 1 + |sep|];
            assert !SepAt(rest[0], sep, j - 1);
          }
        } else if i > 0 {
          assert parts[i] == rest[i];
          assert !SepAt(rest[i], sep, j);
        }
      }
    }
  }

  /** The position of the first `c` in `s`. */
  function FirstIndexOf(s: string, c: char): (i: nat)
    requires c in s
    ensures i < |s| && s[i] == c && c !in s[..i]
  {
    if s[0] == c then 0
    else
      assert c in s[1..] by { assert s == [s[0]] + s[1..]; }
      var j := FirstIndexOf(s[1..], c);
      assert s[..j + 1] == [s[0]] + s[1..][..j];
      j + 1
  }

  /** Splitting on one character: the first segment is the text before the first
      occurrence, and the rest is the split of the text after it. */
  lemma {:induction false} SplitOnChar(s: string, c: char)
    ensures c !in s ==> Split(s, [c]) == [s]
    ensures c in s ==> Split(s, [c]) == [s[..FirstIndexOf(s, c)]] + Split(s[FirstIndexOf(s, c) + 1..], [c])
    decreases |s|
  {
    if |s| == 0 {
    } else if s[0] == c {
      assert s[..1] == [c];
    } else {
      assert s[..1] != [c];
      assert s == [s[0]] + s[1..];
      SplitOnChar(s[1..], c);
      if c in s[1..] {
        var j := FirstIndexOf(s[1..], c);
        assert FirstIndexOf(s, c) == j + 1;
        assert s[..j + 1] == [s[0]] + s[1..][..j];
        assert s[j + 2..] == s[1..][j + 1..];
      }
    }
  }

  /** One `key:value` field. */
  datatype Field = Field(key: string, value: string)

  /** The field a line contributes: `parts[0]` and `parts[1]` of its split on `':'`,
      kept only when `parts[1]` is truthy (present and non-empty). */
  function FieldOf(line: string): (f: Option<Field>)
    ensures f.Some? ==> f.value.value != ""
  {
    var parts := Split(line, ":");
    if |parts| > 1 && parts[1] != "" then Some(Field(parts[0], parts[1])) else None
  }

  /** The text up to the first `':'`, or all of it. */
  function Segment(t: string): string
  {
    if ':' in t then t[..FirstIndexOf(t, ':')] else t
  }

  /** The key is the text before the first `':'` and the value the text between the
      first and the second `':'` (or the end); a line without `':'` or with an empty
      value contributes nothing. */
  lemma LineFields(line: string)
    ensures ':' !in line ==> FieldOf(line) == None
    ensures ':' in line ==>
      var i := FirstIndexOf(line, ':');
      var v := Segment(line[i + 1..]);
      FieldOf(line) == if v != "" then Some(Field(line[..i], v)) else None
  {
    if ':' in line {
      LineFieldsColon(line);
    } else {
      SplitOnChar(line, ':');
    }
  }

  lemma LineFieldsColon(line: string)
    requires ':' in line
    ensures var i := FirstIndexOf(line, ':');
      var v := Segment(line[i + 1..]);
      FieldOf(line) == if v != "" then Some(Field(line[..i], v)) else None
  {
    var i := FirstIndexOf(line, ':');
    var rest := line[i + 1..];
    SplitOnChar(line, ':');
    SplitOnChar(rest, ':');
    var parts := Split(rest, ":");
    var all := Split(line, ":");
    assert all == [line[..i]] + parts;
    assert |all| > 1 && all[0] == line[..i] && all[1] == parts[0];
    assert parts[0] == Segment(rest);
    assert FieldOf(line) == if parts[0] != "" then Some(Field(line[..i], parts[0])) else None;
  }

  predicate Defines(line: string, k: string)
  {
    FieldOf(line).Some? && FieldOf(line).value.key == k
  }

  /** The object built by the `forEach` over the lines: later lines overwrite earlier ones. */
  function InfoMap(lines: seq<string>): (obj: map<string, string>)
    ensures forall k :: k in obj ==> obj[k] != ""
  {
    if lines == [] then map[]
    else
      var m := InfoMap(lines[..|lines| - 1]);
      match FieldOf(lines[|lines| - 1])
      case None => m
      case Some(f) => m[f.key := f.value]
  }

  /** A key is in the object iff some line defines it. */
  lemma {:induction false} InfoMapHas(lines: seq<string>, k: string)
    ensures k in InfoMap(lines) <==> exists i :: 0 <= i < |lines| && Defines(lines[i], k)
  {
    if lines != [] {
      var init := lines[..|lines| - 1];
      InfoMapHas(init, k);
      if k in InfoMap(init) {
        var i :| 0 <= i < |init| && Defines(init[i], k);
        assert lines[i] == init[i];
      }
      if exists i :: 0 <= i < |lines| && Defines(lines[i], k) {
        var i :| 0 <= i < |lines| && Defines(lines[i], k);
        if i < |init| {
          assert init[i] == lines[i];
        }
      }
    }
  }

  /** The value of a key is the value on the LAST line that defines it. */
  lemma {:induction false} InfoMapLast(lines: seq<string>, k: string, i: nat)
    requires i < |lines| && Defines(lines[i], k)
    requires forall j :: i < j < |lines| ==> !Defines(lines[j], k)
    ensures k in InfoMap(lines) && InfoMap(lines)[k] == FieldOf(lines[i]).value.value
  {
    var init := lines[..|lines| - 1];
    if i < |lines| - 1 {
      assert init[i] == lines[i];
      forall j | i < j < |init| ensures !Defines(init[j], k) {
        assert init[j] == lines[j];
      }
      InfoMapLast(init, k, i);
      assert !Defines(lines[|lines| - 1], k);
    }
  }

  /** The object parsed from a whole replication-info reply. */
  function Parse(info: string): (obj: map<string, string>)
    ensures forall k :: k in obj ==> obj[k] != ""
  {
    InfoMap(Split(info, "\r\n"))
  }

  /** The master test applied to a probe reply. */
  predicate IsMaster(info: string)
  {
    var obj := Parse(info);
    "role" in obj && obj["role"] == "master"
  }

  /** Some line defines `k` as `v`, and no later line defines `k`. */
  predicate LastDefinesAs(lines: seq<string>, k: string, v: string)
  {
    exists i :: 0 <= i < |lines| && Defines(lines[i], k) && FieldOf(lines[i]).value.value == v &&
                forall j :: i < j < |lines| ==> !Defines(lines[j], k)
  }

  /** The last line defining `k`. */
  lemma LastDefiner(lines: seq<string>, k: string) returns (i: nat)
    requires exists i :: 0 <= i < |lines| && Defines(lines[i], k)
    ensures i < |lines| && Defines(lines[i], k)
    ensures forall j :: i < j < |lines| ==> !Defines(lines[j], k)
  {
    i := |lines| - 1;
    while !Defines(lines[i], k)
      invariant 0 <= i < |lines|
      invariant forall j :: i < j < |lines| ==> !Defines(lines[j], k)
      invariant exists m :: 0 <= m <= i && Defines(lines[m], k)
      decreases i
    {
      i := i - 1;
    }
  }

  /** A replica is the master iff the last line of its reply that defines `role` gives
      it the value `master`. */
  lemma IsMasterByLastRoleLine(info: string)
    ensures IsMaster(info) <==> LastDefinesAs(Split(info, "\r\n"), "role", "master")
  {
    var lines := Split(info, "\r\n");
    assert Parse(info) == InfoMap(lines);
    InfoMapHas(lines, "role");
    if IsMaster(info) {
      var i := LastDefiner(lines, "role");
      InfoMapLast(lines, "role", i);
    }
    if LastDefinesAs(lines, "role", "master") {
      var i :| 0 <= i < |lines| && Defines(lines[i], "role") && FieldOf(lines[i]).value.value == "master" &&
               forall j :: i < j < |lines| ==> !Defines(lines[j], "role");
      InfoMapLast(lines, "role", i);
    }
  }

  /** The parser as written: the lines are split, then each one is folded into `obj`. */
  method ParseInfo(info: string) returns (obj: map<string, string>)
    ensures obj == Parse(info)
    ensures "role" in obj && obj["role"] == "master" <==> IsMaster(info)
  {
    var lines := Split(info, "\r\n");
    obj := map[];
    for n := 0 to |lines|
      invariant obj == InfoMap(lines[..n])
    {
      assert lines[..n + 1][..n] == lines[..n];
      var parts := Split(lines[n], ":");
      if |parts| > 1 && parts[1] != "" {
        obj := obj[parts[0] := parts[1]];
      }
    }
    assert lines[..|lines|] == lines;
  }

  /** The master test as the probe handler runs it: parse, then look at `role`. */
  method IsMasterInfo(info: string) returns (master: bool)
    ensures master == IsMaster(info)
  {
    var obj := ParseInfo(info);
    master := "role" in obj && obj["role"] == "master";
  }
}
