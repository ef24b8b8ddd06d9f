/**
 * The part of PHP's value model that the client's logic depends on:
 * decoded JSON values, ordered associative arrays, string truthiness,
 * loose (`==`) comparison against a word, `var_export` of a boolean and
 * `implode`.
 */
module Php {
  import opened Wrappers

  /** An array key: PHP keeps integer keys and string keys apart. */
  datatype Key = IntKey(i: int) | StrKey(s: string)

  /** A PHP value as `json_decode($s, true)` can produce it, or as a request parameter. */
  datatype Value =
    | Null
    | Bool(b: bool)
    | Int(i: int)
    | Float(f: real)
    | Str(s: string)
    | Array(entries: seq<(Key, Value)>)

  /** An ordered associative array (PHP `array`), entries in insertion order. */
  type PhpArray = seq<(Key, Value)>

  /** The set of keys present in an array. */
  function Keys(a: PhpArray): set<Key>
  {
    if a == [] then {} else {a[0].0} + Keys(a[1..])
  }

  /** PHP arrays never hold the same key twice. */
  predicate DistinctKeys(a: PhpArray)
  {
    a == [] || (a[0].0 !in Keys(a[1..]) && DistinctKeys(a[1..]))
  }

  /** `$a[$k]`: the value stored under `k`, or None when the key is missing. */
  function Lookup(a: PhpArray, k: Key): (r: Option<Value>)
    ensures r.Some? <==> k in Keys(a)
  {
    if a == [] then None
    else if a[0].0 == k then Some(a[0].1)
    else
      Lookup(a[1..], k)
  }

  /** The keys of two arrays laid end to end. */
  lemma {:induction false} KeysAppend(a: PhpArray, b: PhpArray)
    ensures Keys(a + b) == Keys(a) + Keys(b)
  {
    if a == [] {
      assert a + b == b;
    } else {
      assert (a + b)[0] == a[0] && (a + b)[1..] == a[1..] + b;
      KeysAppend(a[1..], b);
    }
  }

  /**
   * Assigning new keys one after another (`$a['k'] = $v` for a key not yet
   * present) appends the entries: the result keeps distinct keys, and a
   * lookup finds the first array's value, or else the second's.
   */
  lemma {:induction false} AppendNewKeys(a: PhpArray, b: PhpArray)
    requires DistinctKeys(a) && DistinctKeys(b) && Keys(a) !! Keys(b)
    ensures DistinctKeys(a + b)
    ensures forall k :: Lookup(a + b, k) == if k in Keys(a) then Lookup(a, k) else Lookup(b, k)
  {
    if a == [] {
      assert a + b == b;
    } else {
      assert (a + b)[0] == a[0] && (a + b)[1..] == a[1..] + b;
      AppendNewKeys(a[1..], b);
      KeysAppend(a[1..], b);
    }
  }

  /** `isset($a[$k])`: the key is present and its value is not null. */
  predicate IsSet(a: PhpArray, k: Key)
  {
    Lookup(a, k).Some? && Lookup(a, k).value != Null
  }

  /** `(bool) $s`: only the empty string and "0" convert to false. */
  predicate IsTruthy(s: string)
  {
    s != "" && s != "0"
  }

  /** `var_export($b, true)` for a boolean. */
  function VarExport(b: bool): (r: string)
    ensures r == "true" || r == "false"
    ensures (r == "true") <==> b
  {
    if b then "true" else "false"
  }

  /**
   * A non-empty string of lower-case letters and spaces. Such a string is
   * never numeric, so PHP compares it with a number as a string, and it
   * never spells a decimal numeral.
   */
  predicate IsLowerWord(w: string)
  {
    w != [] && forall i :: 0 <= i < |w| ==> ('a' <= w[i] <= 'z' || w[i] == ' ')
  }

  /**
   * PHP 8's loose comparison `$v == $w` of any value with a lower-case word:
   * null compares as "", a boolean compares with the word's truthiness,
   * a number with the word as a string (never equal), an array is never
   * equal to a string, and two non-numeric strings compare byte by byte.
   */
  predicate LooseEquals(v: Value, w: string)
    requires IsLowerWord(w)
  {
    match v
    case Null => w == ""
    case Bool(b) => b == IsTruthy(w)
    case Int(_) => false
    case Float(_) => false
    case Str(s) => s == w
    case Array(_) => false
  }

  /** `in_array($v, $haystack)` without the strict flag. */
  predicate InArray(v: Value, haystack: seq<string>)
    requires forall i :: 0 <= i < |haystack| ==> IsLowerWord(haystack[i])
  {
    exists i :: 0 <= i < |haystack| && LooseEquals(v, haystack[i])
  }

  /** `implode($glue, $pieces)`: the pieces in order, separated by `glue`. */
  function Implode(glue: string, pieces: seq<string>): string
  {
    if |pieces| == 0 then ""
    else if |pieces| == 1 then pieces[0]
    else pieces[0] + glue + Implode(glue, pieces[1..])
  }

  /** `explode($sep, $s)` for a one-character separator: the inverse of Implode. */
  function Explode(sep: char, s: string): (parts: seq<string>)
    ensures |parts| >= 1
  {
    if s == [] then [""]
    else if s[0] == sep then [""] + Explode(sep, s[1..])
    else
      var rest := Explode(sep, s[1..]);
      [[s[0]] + rest[0]] + rest[1..]
  }

  /** A piece without the separator explodes to itself. */
  lemma {:induction false} ExplodeWithoutSeparator(sep: char, p: string)
    requires sep !in p
    ensures Explode(sep, p) == [p]
  {
    if p != [] {
      ExplodeWithoutSeparator(sep, p[1..]);
      assert [p[0]] + p[1..] == p;
    }
  }

  /** Exploding at the first separator splits off the piece before it. */
  lemma {:induction false} ExplodeAtSeparator(sep: char, p: string, s: string)
    requires sep !in p
    ensures Explode(sep, p + [sep] + s) == [p] + Explode(sep, s)
  {
    if p == [] {
      assert p + [sep] + s == [sep] + s;
      assert ([sep] + s)[1..] == s;
    } else {
      var t := p + [sep] + s;
      assert t[0] == p[0] && t[1..] == p[1..] + [sep] + s;
      ExplodeAtSeparator(sep, p[1..], s);
      assert [p[0]] + p[1..] == p;
    }
  }

  /**
   * Round trip: when no piece contains the separator, exploding the
   * imploded string gives back the pieces, in order. The empty list is
   * excluded because `implode` maps both [] and [""] to "".
   */
  lemma {:induction false} ExplodeImplode(sep: char, pieces: seq<string>)
    requires |pieces| >= 1
    requires forall i :: 0 <= i < |pieces| ==> sep !in pieces[i]
    ensures Explode(sep, Implode([sep], pieces)) == pieces
  {
    if |pieces| == 1 {
      ExplodeWithoutSeparator(sep, pieces[0]);
    } else {
      ExplodeImplode(sep, pieces[1..]);
      ExplodeAtSeparator(sep, pieces[0], Implode([sep], pieces[1..]));
      assert [pieces[0]] + pieces[1..] == pieces;
    }
  }
}
