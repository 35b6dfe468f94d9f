/** JavaScript string operations the storefront relies on: `trim`, `split`
    on a one-character separator, `startsWith`/`endsWith` and single
    character case conversion. */
module Text {

  /** The characters `String.prototype.trim` removes: WhiteSpace and
      LineTerminator of ECMAScript (section 12.2 and 12.3 of ECMA-262). */
  predicate IsJsWhitespace(c: char)
  {
    c == '\t' || c == '\n' || c == '\U{B}' || c == '\U{C}' || c == '\r' ||
    c == ' ' || c == '\U{A0}' || c == '\U{1680}' ||
    ('\U{2000}' <= c <= '\U{200A}') ||
    c == '\U{2028}' || c == '\U{2029}' || c == '\U{202F}' || c == '\U{205F}' ||
    c == '\U{3000}' || c == '\U{FEFF}'
  }

  predicate AllWhitespace(s: string)
  {
    forall i :: 0 <= i < |s| ==> IsJsWhitespace(s[i])
  }

  /** Leading whitespace removed: a suffix of `s` that does not start
      with whitespace. */
  function TrimStart(s: string): (r: string)
    ensures |r| <= |s| && r == s[|s| - |r|..]
    ensures r == [] || !IsJsWhitespace(r[0])
  {
    if s != [] && IsJsWhitespace(s[0]) then TrimStart(s[1..]) else s
  }

  /** What `TrimStart` drops is whitespace. */
  lemma {:induction false} TrimStartDropsWhitespace(s: string)
    ensures AllWhitespace(s[..|s| - |TrimStart(s)|])
  {
    if s != [] && IsJsWhitespace(s[0]) {
      var r := TrimStart(s[1..]);
      TrimStartDropsWhitespace(s[1..]);
      forall i | 0 <= i < |s| - |r| ensures IsJsWhitespace(s[i]) {
        if i > 0 {
          assert s[i] == s[1..][..|s[1..]| - |r|][i - 1];
        }
      }
    }
  }

  /** Trailing whitespace removed: a prefix of `s` that does not end with
      whitespace. */
  function TrimEnd(s: string): (r: string)
    ensures |r| <= |s| && r == s[..|r|]
    ensures r == [] || !IsJsWhitespace(r[|r| - 1])
  {
    if s != [] && IsJsWhitespace(s[|s| - 1]) then TrimEnd(s[..|s| - 1]) else s
  }

  /** What `TrimEnd` drops is whitespace. */
  lemma {:induction false} TrimEndDropsWhitespace(s: string)
    ensures AllWhitespace(s[|TrimEnd(s)|..])
  {
    if s != [] && IsJsWhitespace(s[|s| - 1]) {
      var r := TrimEnd(s[..|s| - 1]);
      TrimEndDropsWhitespace(s[..|s| - 1]);
      forall i | |r| <= i < |s| ensures IsJsWhitespace(s[i]) {
        if i < |s| - 1 {
          assert s[i] == s[..|s| - 1][|r|..][i - |r|];
        }
      }
    }
  }

  /** Neither starts nor ends with whitespace. */
  predicate IsTrimmed(s: string)
  {
    s == [] || (!IsJsWhitespace(s[0]) && !IsJsWhitespace(s[|s| - 1]))
  }

  /** `s.trim()`: the longest infix of `s` that neither starts nor ends with
      whitespace, obtained by dropping only whitespace. */
  function Trim(s: string): (r: string)
    ensures |r| <= |s|
    ensures IsTrimmed(r)
    ensures exists a, b :: 0 <= a <= b <= |s| && r == s[a..b] && AllWhitespace(s[..a]) && AllWhitespace(s[b..])
  {
    var t := TrimStart(s);
    var r := TrimEnd(t);
    assert r != [] ==> r[0] == t[0];
    TrimDropsWhitespace(s);
    r
  }

  /** Trimming both ends keeps an infix of `s` and drops only whitespace
      before and after it. */
  lemma TrimDropsWhitespace(s: string)
    ensures var a := |s| - |TrimStart(s)|;
            var b := a + |TrimEnd(TrimStart(s))|;
            && b <= |s| && TrimEnd(TrimStart(s)) == s[a..b]
            && AllWhitespace(s[..a]) && AllWhitespace(s[b..])
  {
    var t := TrimStart(s);
    var r := TrimEnd(t);
    var a, b := |s| - |t|, |s| - |t| + |r|;
    SliceOfSuffix(s, a, |r|);
    assert AllWhitespace(s[..a]) by {
      TrimStartDropsWhitespace(s);
    }
    assert AllWhitespace(s[b..]) by {
      TrimEndDropsWhitespace(t);
    }
  }

  /** Cutting a suffix of `s` at `c` is cutting `s` at `a + c`. */
  lemma SliceOfSuffix(s: string, a: nat, c: nat)
    requires a + c <= |s|
    ensures s[a..][..c] == s[a..a + c] && s[a..][c..] == s[a + c..]
  {
  }

  /** `s.trim() === ""` exactly when every character is whitespace. */
  lemma TrimEmptyIff(s: string)
    ensures Trim(s) == [] <==> AllWhitespace(s)
  {
    var t := TrimStart(s);
    var n := |s| - |t|;
    if Trim(s) == [] {
      TrimEndDropsWhitespace(t);
      assert t == [];
      TrimStartDropsWhitespace(s);
      assert s[..n] == s;
    } else {
      var r := Trim(s);
      assert t == s[n..];
      assert r == t[..|r|];
      assert s[n] == r[0];
    }
  }

  /** Trimming a string that is already trimmed changes nothing. */
  lemma TrimTrimmed(s: string)
    requires IsTrimmed(s)
    ensures Trim(s) == s
  {
    if s != [] {
      assert TrimStart(s) == s;
      assert TrimEnd(s) == s;
    }
  }

  /** Trimming twice is trimming once. */
  lemma TrimIdempotent(s: string)
    ensures Trim(Trim(s)) == Trim(s)
  {
    TrimTrimmed(Trim(s));
  }

  /** `s.split(sep)` for a one-character separator: the pieces between
      separators, including the empty ones ("" splits to [""] and "," to
      ["", ""]). */
  function Split(s: string, sep: char): (parts: seq<string>)
    ensures |parts| >= 1
    ensures forall k :: 0 <= k < |parts| ==> sep !in parts[k]
  {
    if s == [] then [[]]
    else
      var rest := Split(s[1..], sep);
      if s[0] == sep then [[]] + rest
      else [[s[0]] + rest[0]] + rest[1..]
  }

  /** `parts.join(sep)`. */
  function Join(parts: seq<string>, sep: char): string
  {
    if |parts| == 0 then []
    else if |parts| == 1 then parts[0]
    else parts[0] + [sep] + Join(parts[1..], sep)
  }

  /** Splitting loses nothing: joining the pieces with the separator gives
      back the original string. */
  lemma {:induction false} JoinSplit(s: string, sep: char)
    ensures Join(Split(s, sep), sep) == s
  {
    if s != [] {
      var rest := Split(s[1..], sep);
      JoinSplit(s[1..], sep);
      if s[0] == sep {
        assert Split(s, sep) == [[]] + rest;
        assert ([[]] + rest)[1..] == rest;
      } else {
        var parts := Split(s, sep);
        assert parts[0] == [s[0]] + rest[0];
        assert parts[1..] == rest[1..];
        if |rest| == 1 {
          assert parts == [[s[0]] + rest[0]];
        } else {
          assert Join(parts, sep) == parts[0] + [sep] + Join(rest[1..], sep);
          assert Join(rest, sep) == rest[0] + [sep] + Join(rest[1..], sep);
        }
      }
    }
  }

  /** A string without the separator is one piece. */
  lemma {:induction false} SplitWithoutSeparator(s: string, sep: char)
    requires sep !in s
    ensures Split(s, sep) == [s]
  {
    if s != [] {
      assert sep !in s[1..] by {
        forall i | 0 <= i < |s[1..]| ensures s[1..][i] != sep {
          assert s[1..][i] == s[i + 1];
        }
      }
      SplitWithoutSeparator(s[1..], sep);
      assert [s[0]] + s[1..] == s;
    }
  }

  /** `.map(p => p.trim()).filter(Boolean)` over split pieces. */
  function TrimNonEmpty(parts: seq<string>): (r: seq<string>)
    ensures |r| <= |parts|
    ensures forall k :: 0 <= k < |r| ==> r[k] != [] && IsTrimmed(r[k])
  {
    if parts == [] then []
    else if Trim(parts[0]) == [] then TrimNonEmpty(parts[1..])
    else [Trim(parts[0])] + TrimNonEmpty(parts[1..])
  }

  /** A string is kept, trimmed, exactly when some piece trims to it. */
  lemma {:induction false} TrimNonEmptyMembers(parts: seq<string>, x: string)
    ensures x in TrimNonEmpty(parts) <==> x != [] && exists k :: 0 <= k < |parts| && Trim(parts[k]) == x
  {
    if parts != [] {
      var tail := parts[1..];
      TrimNonEmptyMembers(tail, x);
      assert x in TrimNonEmpty(parts) <==> (x == Trim(parts[0]) && x != []) || x in TrimNonEmpty(tail);
      if exists k :: 0 <= k < |parts| && Trim(parts[k]) == x {
        var k :| 0 <= k < |parts| && Trim(parts[k]) == x;
        if k > 0 {
          assert Trim(tail[k - 1]) == x;
        }
      }
      if exists k :: 0 <= k < |tail| && Trim(tail[k]) == x {
        var k :| 0 <= k < |tail| && Trim(tail[k]) == x;
        assert Trim(parts[k + 1]) == x;
      }
    }
  }

  /** `s.split(sep).map(p => p.trim()).filter(Boolean)`: the non-blank
      pieces, trimmed and in order; none of them contains the separator. */
  function SplitTrimmed(s: string, sep: char): (r: seq<string>)
    ensures forall k :: 0 <= k < |r| ==> r[k] != [] && IsTrimmed(r[k])
  {
    TrimNonEmpty(Split(s, sep))
  }

  /** A string is among the split and trimmed pieces exactly when it is
      not empty and some piece of `s.split(sep)` trims to it. */
  lemma {:induction false} SplitTrimmedMembers(s: string, sep: char, x: string)
    ensures x in SplitTrimmed(s, sep) <==>
              x != [] && exists k :: 0 <= k < |Split(s, sep)| && Trim(Split(s, sep)[k]) == x
  {
    SplitPiecesKept(s, sep, x);
  }

  /** `TrimNonEmptyMembers` for the pieces of one split. */
  lemma {:induction false} SplitPiecesKept(s: string, sep: char, x: string)
    ensures x in TrimNonEmpty(Split(s, sep)) <==>
              x != [] && exists k :: 0 <= k < |Split(s, sep)| && Trim(Split(s, sep)[k]) == x
  {
    TrimNonEmptyMembers(Split(s, sep), x);
  }

  /** Only separators and whitespace, such as "," or " , ", split to the
      empty list rather than to a list holding an empty string. */
  lemma {:induction false} SplitTrimmedBlank(parts: seq<string>)
    requires forall k :: 0 <= k < |parts| ==> AllWhitespace(parts[k])
    ensures TrimNonEmpty(parts) == []
  {
    if parts != [] {
      TrimEmptyIff(parts[0]);
      SplitTrimmedBlank(parts[1..]);
    }
  }

  predicate StartsWith(s: string, prefix: string)
  {
    prefix <= s
  }

  predicate EndsWith(s: string, suffix: string)
  {
    |suffix| <= |s| && s[|s| - |suffix|..] == suffix
  }

  /** `toLowerCase` of one character, for ASCII and Latin-1 letters. */
  function LowerChar(c: char): (d: char)
    ensures 'A' <= c <= 'Z' ==> 'a' <= d <= 'z' && d as int == c as int + 32
    ensures 'À' <= c <= 'Þ' && c != '×' ==> 'à' <= d <= 'þ' && d as int == c as int + 32
    ensures !('A' <= c <= 'Z') && !('À' <= c <= 'Þ' && c != '×') ==> d == c
  {
    if 'A' <= c <= 'Z' then (c as int + 32) as char
    else if 'À' <= c <= 'Þ' && c != '×' then (c as int + 32) as char
    else c
  }

  /** `s.toLowerCase()`, character by character. */
  function ToLower(s: string): (r: string)
    ensures |r| == |s|
    ensures forall i :: 0 <= i < |s| ==> r[i] == LowerChar(s[i])
  {
    if s == [] then [] else [LowerChar(s[0])] + ToLower(s[1..])
  }

  /** Lower-casing twice is lower-casing once. */
  lemma ToLowerIdempotent(s: string)
    ensures ToLower(ToLower(s)) == ToLower(s)
  {
    var r := ToLower(s);
    assert forall i :: 0 <= i < |r| ==> LowerChar(r[i]) == r[i];
  }

  /** `c.toUpperCase()` for one character, for ASCII and Latin-1 letters:
      a-z and à-þ (but not ÷) move down by 32; the German sharp s becomes
      two letters, and µ and ÿ have their upper case outside Latin-1. */
  function UpperChar(c: char): (r: string)
    ensures 'a' <= c <= 'z' ==> r == [(c as int - 32) as char] && 'A' <= r[0] <= 'Z'
    ensures 'à' <= c <= 'þ' && c != '÷' ==> r == [(c as int - 32) as char] && 'À' <= r[0] <= 'Þ' && r[0] != '×'
    ensures c == 'ß' ==> r == "SS"
    ensures c == 'µ' ==> r == [0x039C as char]
    ensures c == 'ÿ' ==> r == [0x0178 as char]
    ensures !('a' <= c <= 'z') && !('à' <= c <= 'þ' && c != '÷') && c != 'ß' && c != 'µ' && c != 'ÿ' ==> r == [c]
  {
    if 'a' <= c <= 'z' then [(c as int - 32) as char]
    else if c == 'ß' then "SS"
    else if c == 'µ' then "Μ"
    else if c == 'ÿ' then "Ÿ"
    else if 'à' <= c <= 'þ' && c != '÷' then [(c as int - 32) as char]
    else [c]
  }
}

/** JavaScript values as they arrive in JSON request bodies, and the
    truthiness test `!x` that every route applies to them. */
module Js {
  import opened Wrappers
  datatype Value =
    | Undefined
    | Null
    | Bool(b: bool)
    | Num(n: real)
    | Str(s: string)
    | Arr(items: seq<Value>)
    | Obj(fields: map<string, Value>)

  /** ECMAScript ToBoolean: `undefined`, `null`, `false`, `0` and `""` are
      falsy; every array and object is truthy, even an empty one. */
  predicate Truthy(v: Value)
  {
    match v
    case Undefined => false
    case Null => false
    case Bool(b) => b
    case Num(n) => n != 0.0
    case Str(s) => s != []
    case Arr(_) => true
    case Obj(_) => true
  }

  /** `x || null`. */
  function OrNull(v: Value): (r: Value)
    ensures Truthy(v) ==> r == v
    ensures !Truthy(v) ==> r == Null
  {
    if Truthy(v) then v else Null
  }

  /** `obj.name`: the field of an object, `undefined` when it has none
      or is not an object. */
  function Field(v: Value, name: string): (r: Value)
    ensures !v.Obj? ==> r == Undefined
    ensures v.Obj? && name in v.fields ==> r == v.fields[name]
    ensures v.Obj? && name !in v.fields ==> r == Undefined
  {
    if v.Obj? && name in v.fields then v.fields[name] else Undefined
  }

  /** Strings as the items of a JSON array. */
  function Strings(xs: seq<string>): (r: seq<Value>)
    ensures |r| == |xs| && forall k :: 0 <= k < |xs| ==> r[k] == Str(xs[k])
  {
    if xs == [] then [] else [Str(xs[0])] + Strings(xs[1..])
  }

  /** The ways a number and a string are converted into each other
      (`String(n)`, `Number(s)`, `parseFloat(s)`); these are not modelled,
      the caller supplies them. `None` stands for NaN. */
  datatype NumberText = NumberText(show: real -> string, parse: string -> Option<real>)
}

/** An optional value: JavaScript's `undefined`/`null` against a present
    one. */
module Wrappers {
  datatype Option<+T> = None | Some(value: T) {
    function GetOr(default: T): T
    {
      if Some? then value else default
    }
  }
}
