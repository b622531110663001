/** Failure types and the string operations the modelled code relies on. */
module Wrappers {
  datatype Option<+T> = None | Some(value: T) {
    function GetOr(default: T): T {
      if Some? then value else default
    }
  }

  datatype Result<+T, +E> = Ok(value: T) | Err(error: E)
}

module Text {

  /** The code points Go's `unicode.IsSpace` accepts. */
  predicate IsSpace(c: char) {
    var n := c as int;
    || 0x09 <= n <= 0x0D || n == 0x20 || n == 0x85 || n == 0xA0 || n == 0x1680
    || 0x2000 <= n <= 0x200A || n == 0x2028 || n == 0x2029 || n == 0x202F || n == 0x205F || n == 0x3000
  }

  predicate Trimmed(s: string) {
    s == "" || (!IsSpace(s[0]) && !IsSpace(s[|s| - 1]))
  }

  /** `strings.TrimSpace`. */
  function TrimSpace(s: string): (r: string)
    ensures Trimmed(r)
    ensures Trimmed(s) ==> r == s
  {
    if s == "" then ""
    else if IsSpace(s[0]) then TrimSpace(s[1..])
    else if IsSpace(s[|s| - 1]) then TrimSpace(s[..|s| - 1])
    else s
  }

  /** Only white space, as `strings.TrimSpace(s) == ""` tests it. */
  predicate Blank(s: string) {
    forall i :: 0 <= i < |s| ==> IsSpace(s[i])
  }

  lemma {:induction false} BlankIsTrimmedAway(s: string)
    ensures Blank(s) <==> TrimSpace(s) == ""
  {
    if s != "" {
      if IsSpace(s[0]) {
        BlankIsTrimmedAway(s[1..]);
        assert forall i :: 1 <= i < |s| ==> s[i] == s[1..][i - 1];
      } else if IsSpace(s[|s| - 1]) {
        BlankIsTrimmedAway(s[..|s| - 1]);
        assert s[..|s| - 1][0] == s[0];
      }
    }
  }

  // ---------------------------------------------------------------- separated lists

  predicate Without(s: string, c: char) {
    forall i :: 0 <= i < |s| ==> s[i] != c
  }

  lemma {:induction false} TrimKeepsWithout(s: string, c: char)
    requires Without(s, c)
    ensures Without(TrimSpace(s), c)
  {
    if s != "" {
      if IsSpace(s[0]) {
        TrimKeepsWithout(s[1..], c);
      } else if IsSpace(s[|s| - 1]) {
        TrimKeepsWithout(s[..|s| - 1], c);
      }
    }
  }

  /** `strings.Join` with a one-character separator. */
  function Join(parts: seq<string>, sep: char): string {
    if parts == [] then "" else if |parts| == 1 then parts[0] else parts[0] + [sep] + Join(parts[1..], sep)
  }

  /** `strings.Split` with a one-character separator. */
  function Split(s: string, sep: char): (parts: seq<string>)
    ensures |parts| >= 1
    ensures forall p :: p in parts ==> Without(p, sep)
  {
    if s == "" then [""]
    else
      var rest := Split(s[1..], sep);
      if s[0] == sep then [""] + rest
      else
        assert Without(rest[0], sep);
        [[s[0]] + rest[0]] + rest[1..]
  }

  /** `strings.Trim` with a one-character set. */
  function TrimChar(s: string, c: char): string {
    if s == "" then ""
    else if s[0] == c then TrimChar(s[1..], c)
    else if s[|s| - 1] == c then TrimChar(s[..|s| - 1], c)
    else s
  }

  lemma {:induction false} SplitPlain(x: string, sep: char)
    requires Without(x, sep)
    ensures Split(x, sep) == [x]
  {
    if x != "" {
      SplitPlain(x[1..], sep);
      assert [x[0]] + x[1..] == x;
    }
  }

  lemma {:induction false} SplitFirst(x: string, s: string, sep: char)
    requires Without(x, sep)
    ensures Split(x + [sep] + s, sep) == [x] + Split(s, sep)
  {
    var t := x + [sep] + s;
    if x == "" {
      assert t[1..] == s;
    } else {
      SplitFirst(x[1..], s, sep);
      assert t[1..] == x[1..] + [sep] + s;
      assert [x[0]] + x[1..] == x;
    }
  }

  ghost predicate Separable(parts: seq<string>, sep: char) {
    parts != [] && forall i :: 0 <= i < |parts| ==> Without(parts[i], sep)
  }

  /** Splitting undoes joining. */
  lemma {:induction false} SplitJoin(parts: seq<string>, sep: char)
    requires Separable(parts, sep)
    ensures Split(Join(parts, sep), sep) == parts
  {
    if |parts| == 1 {
      SplitPlain(parts[0], sep);
    } else {
      SplitJoin(parts[1..], sep);
      SplitFirst(parts[0], Join(parts[1..], sep), sep);
    }
  }

  /** The joined text starts like its first part, or with the separator. */
  lemma JoinFirst(parts: seq<string>, sep: char)
    requires |parts| > 1 || (|parts| == 1 && parts[0] != "")
    ensures Join(parts, sep) != "" && Join(parts, sep)[0] == if parts[0] != "" then parts[0][0] else sep
  {
  }

  /** The joined text ends like its last part, or with the separator. */
  lemma {:induction false} JoinLast(parts: seq<string>, sep: char)
    requires |parts| > 1 || (|parts| == 1 && parts[0] != "")
    ensures var s, last := Join(parts, sep), parts[|parts| - 1];
            s != "" && s[|s| - 1] == if last != "" then last[|last| - 1] else sep
  {
    if |parts| > 1 {
      var s, rest := Join(parts, sep), Join(parts[1..], sep);
      assert s == parts[0] + [sep] + rest;
      if |parts| > 2 || parts[1] != "" {
        JoinLast(parts[1..], sep);
        assert s[|s| - 1] == rest[|rest| - 1];
      }
    }
  }

  function CountChar(s: string, c: char): nat {
    if s == "" then 0 else (if s[0] == c then 1 else 0) + CountChar(s[1..], c)
  }

  lemma {:induction false} SplitLength(s: string, sep: char)
    ensures |Split(s, sep)| == 1 + CountChar(s, sep)
  {
    if s != "" {
      SplitLength(s[1..], sep);
    }
  }

  lemma {:induction false} CountLast(s: string, c: char)
    requires s != ""
    ensures CountChar(s, c) == CountChar(s[..|s| - 1], c) + if s[|s| - 1] == c then 1 else 0
  {
    if |s| > 1 {
      CountLast(s[1..], c);
      assert s[1..][..|s| - 2] == s[..|s| - 1][1..];
    }
  }

  /** Trimming loses separators exactly when one stands at an end. */
  lemma {:induction false} TrimCount(s: string, c: char)
    ensures CountChar(TrimChar(s, c), c) <= CountChar(s, c)
    ensures s != "" && (s[0] == c || s[|s| - 1] == c) ==> CountChar(TrimChar(s, c), c) < CountChar(s, c)
  {
    if s != "" {
      CountLast(s, c);
      if s[0] == c {
        TrimCount(s[1..], c);
      } else if s[|s| - 1] == c {
        TrimCount(s[..|s| - 1], c);
      }
    }
  }

  /** Joining, trimming separators and splitting again is the identity exactly when no part contains the
      separator and neither end of a longer list is empty. */
  lemma JoinTrimSplit(parts: seq<string>, sep: char)
    requires parts != []
    ensures Split(TrimChar(Join(parts, sep), sep), sep) == parts <==>
            && Separable(parts, sep)
            && (|parts| > 1 ==> parts[0] != "" && parts[|parts| - 1] != "")
  {
    var s := Join(parts, sep);
    if !Separable(parts, sep) {
      var i :| 0 <= i < |parts| && !Without(parts[i], sep);
      assert parts[i] in parts;
    } else {
      SplitJoin(parts, sep);
      if |parts| > 1 {
        JoinFirst(parts, sep);
        JoinLast(parts, sep);
        SplitLength(s, sep);
        SplitLength(TrimChar(s, sep), sep);
        TrimCount(s, sep);
      }
    }
  }

  // ---------------------------------------------------------------- leading characters

  /** The first character that is not white space. */
  ghost predicate Leads(s: string, c: char) {
    exists i :: 0 <= i < |s| && s[i] == c && Blank(s[..i])
  }

  lemma {:induction false} TrimLeads(s: string, c: char)
    requires !IsSpace(c)
    ensures [c] <= TrimSpace(s) <==> Leads(s, c)
  {
    if s != "" {
      if IsSpace(s[0]) {
        TrimLeads(s[1..], c);
        forall i | 0 < i < |s|
          ensures Blank(s[..i]) <==> Blank(s[1..][..i - 1])
        {
          assert s[..i] == [s[0]] + s[1..][..i - 1];
        }
        if Leads(s, c) {
          var i :| 0 <= i < |s| && s[i] == c && Blank(s[..i]);
          assert s[1..][i - 1] == c;
        }
        if Leads(s[1..], c) {
          var i :| 0 <= i < |s[1..]| && s[1..][i] == c && Blank(s[1..][..i]);
          assert s[i + 1] == c && Blank(s[..i + 1]);
        }
      } else {
        LeadsFirst(s, c);
        if IsSpace(s[|s| - 1]) {
          TrimLeads(s[..|s| - 1], c);
          LeadsFirst(s[..|s| - 1], c);
        }
      }
    }
  }

  lemma LeadsFirst(s: string, c: char)
    requires s != "" && !IsSpace(s[0])
    ensures Leads(s, c) <==> s[0] == c
  {
    assert Blank(s[..0]);
    forall i | 0 < i < |s|
      ensures !Blank(s[..i])
    {
      assert s[..i][0] == s[0];
    }
  }
}
