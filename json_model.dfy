/** The values the four scripts work on: JSON documents as Python's `json`
    module loads them, with Python's dictionary semantics, the few string
    operations the scripts use, and the exceptions a malformed document makes
    them raise. */
module JsonModel {

  /** A JSON value. An object keeps its keys in insertion order, as a Python
      dict does; a floating-point number is kept as opaque text because no
      arithmetic is ever done on one. */
  datatype Json =
    | JNull
    | JBool(b: bool)
    | JInt(i: int)
    | JNum(text: string)
    | JStr(s: string)
    | JArr(elems: seq<Json>)
    | JObj(fields: Fields)

  type Fields = seq<(string, Json)>

  datatype Option<T> = None | Some(value: T)

  /** The exceptions the scripts can raise on a document of the wrong shape,
      and the one the interpreter raises when recursion goes too deep. */
  datatype PyError = TypeError | AttributeError | KeyError | RecursionError

  datatype Result<T> = Ok(value: T) | Err(error: PyError)

  // ---------------------------------------------------------------------
  // Dictionaries as association lists

  function Keys(fs: Fields): (ks: seq<string>)
    ensures |ks| == |fs|
    ensures forall i {:trigger ks[i]} :: 0 <= i < |fs| ==> ks[i] == fs[i].0
  {
    seq(|fs|, i requires 0 <= i < |fs| => fs[i].0)
  }

  lemma KeysAppend(fs: Fields, x: (string, Json))
    ensures Keys(fs + [x]) == Keys(fs) + [x.0]
  {
    assert Keys(fs + [x])[|fs|] == x.0;
  }

  lemma KeysPrefix(fs: Fields, i: nat)
    requires i < |fs|
    ensures Keys(fs)[..i + 1] == Keys(fs)[..i] + [fs[i].0]
  {
    assert Keys(fs)[i] == fs[i].0;
  }

  lemma AppendThree(s: seq<string>, a: string, b: string, c: string)
    ensures s + [a] + [b] + [c] == s + [a, b, c]
  {
  }

  predicate NoDup(ks: seq<string>) {
    forall i, j :: 0 <= i < j < |ks| ==> ks[i] != ks[j]
  }

  /** `d.get(k)`: the value stored under `k`, if any. */
  function Lookup(fs: Fields, k: string): (r: Option<Json>)
    ensures r.Some? <==> k in Keys(fs)
    ensures r.Some? ==> (k, r.value) in fs
  {
    if fs == [] then None
    else if fs[0].0 == k then assert Keys(fs)[0] == k; Some(fs[0].1)
    else
      var r := Lookup(fs[1..], k);
      assert Keys(fs) == [fs[0].0] + Keys(fs[1..]);
      r
  }

  /** `d[k] = v`: the key afterwards holds the new value (see PutKeys for
      where it goes). */
  function Put(fs: Fields, k: string, v: Json): (r: Fields)
    ensures Lookup(r, k) == Some(v)
  {
    if fs == [] then [(k, v)]
    else if fs[0].0 == k then [(k, v)] + fs[1..]
    else [fs[0]] + Put(fs[1..], k, v)
  }

  /** An existing key keeps its position; a new key is appended at the end. */
  lemma PutKeys(fs: Fields, k: string, v: Json)
    ensures k in Keys(fs) ==> Keys(Put(fs, k, v)) == Keys(fs)
    ensures k !in Keys(fs) ==> Put(fs, k, v) == fs + [(k, v)]
  {
    if k in Keys(fs) {
      PutExistingKey(fs, k, v);
    } else {
      PutAppends(fs, k, v);
    }
  }

  lemma {:induction false} PutExistingKey(fs: Fields, k: string, v: Json)
    requires k in Keys(fs)
    ensures Keys(Put(fs, k, v)) == Keys(fs)
  {
    assert fs != [];
    if fs[0].0 == k {
      assert Keys(Put(fs, k, v)) == Keys(fs);
    } else {
      var t := Put(fs[1..], k, v);
      assert Keys(fs) == [fs[0].0] + Keys(fs[1..]);
      assert k in Keys(fs[1..]);
      PutExistingKey(fs[1..], k, v);
      assert Put(fs, k, v) == [fs[0]] + t;
      assert Keys([fs[0]] + t) == [fs[0].0] + Keys(t);
    }
  }

  lemma {:induction false} PutAppends(fs: Fields, k: string, v: Json)
    requires k !in Keys(fs)
    ensures Put(fs, k, v) == fs + [(k, v)]
  {
    if fs != [] {
      assert Keys(fs)[0] == fs[0].0;
      assert Keys(fs) == [fs[0].0] + Keys(fs[1..]);
      assert k !in Keys(fs[1..]);
      PutAppends(fs[1..], k, v);
      assert fs == [fs[0]] + fs[1..];
    }
  }

  /** A new key is listed last. */
  lemma PutNewKey(fs: Fields, k: string, v: Json)
    requires k !in Keys(fs)
    ensures Keys(Put(fs, k, v)) == Keys(fs) + [k]
  {
    PutKeys(fs, k, v);
    assert Keys(fs + [(k, v)]) == Keys(fs) + [k];
  }

  /** Assigning a key keeps the keys of a dict distinct. */
  lemma PutNoDup(fs: Fields, k: string, v: Json)
    requires NoDup(Keys(fs))
    ensures NoDup(Keys(Put(fs, k, v)))
  {
    PutKeys(fs, k, v);
    if k !in Keys(fs) {
      assert Keys(Put(fs, k, v)) == Keys(fs) + [k];
    }
  }

  /** Assigning one key leaves every other key's value as it was. */
  lemma {:induction false} LookupPutOther(fs: Fields, k: string, v: Json, k': string)
    requires k' != k
    ensures Lookup(Put(fs, k, v), k') == Lookup(fs, k')
  {
    if fs != [] && fs[0].0 != k {
      LookupPutOther(fs[1..], k, v, k');
    }
  }

  /** Looking a key up in a list of distinct keys finds the entry at its index. */
  lemma {:induction false} LookupAt(fs: Fields, i: nat)
    requires NoDup(Keys(fs)) && i < |fs|
    ensures Lookup(fs, fs[i].0) == Some(fs[i].1)
  {
    if i > 0 {
      assert Keys(fs)[0] != Keys(fs)[i];
      assert Keys(fs[1..]) == Keys(fs)[1..];
      LookupAt(fs[1..], i - 1);
    }
  }


  /** A lookup in a concatenation finds the first part's entry first. */
  lemma {:induction false} LookupAppend(a: Fields, b: Fields, k: string)
    ensures Lookup(a + b, k) == if k in Keys(a) then Lookup(a, k) else Lookup(b, k)
    decreases |a|
  {
    if a == [] {
      assert a + b == b;
    } else {
      assert (a + b)[0] == a[0];
      assert (a + b)[1..] == a[1..] + b;
      assert Keys(a) == [a[0].0] + Keys(a[1..]);
      LookupAppend(a[1..], b, k);
    }
  }

  /** `d.get(k, default)`, which only a dict has. */
  function Get(container: Json, k: string, default: Json): (r: Result<Json>)
    ensures r.Ok? <==> container.JObj?
    ensures container.JObj? && k !in Keys(container.fields) ==> r == Ok(default)
    ensures container.JObj? && k in Keys(container.fields) ==> r == Ok(Lookup(container.fields, k).value)
  {
    match container
    case JObj(fs) => Ok(match Lookup(fs, k) case Some(v) => v case None => default)
    case _ => Err(AttributeError)
  }

  /** The same lookup when the container is known to be a dict. */
  function GetOr(fs: Fields, k: string, default: Json): Json
  {
    match Lookup(fs, k) case Some(v) => v case None => default
  }

  /** `k in container` for a string `k`: key membership for a dict, element
      membership for a list, substring for a string; any other operand makes
      Python raise TypeError. */
  function Contains(container: Json, k: string): (r: Result<bool>)
    ensures container.JObj? ==> r == Ok(k in Keys(container.fields))
    ensures container.JArr? ==> r == Ok(JStr(k) in container.elems)
    ensures container.JStr? ==> r == Ok(IsSubstring(k, container.s))
    ensures r.Err? <==> !(container.JObj? || container.JArr? || container.JStr?)
    ensures r.Err? ==> r.error == TypeError
  {
    match container
    case JObj(fs) => Ok(k in Keys(fs))
    case JArr(a) => Ok(JStr(k) in a)
    case JStr(s) => Ok(IsSubstring(k, s))
    case _ => Err(TypeError)
  }

  /** `container[k]` for a string `k`: only a dict can be indexed by a string. */
  function Index(container: Json, k: string): (r: Result<Json>)
    ensures r.Ok? <==> container.JObj? && k in Keys(container.fields)
    ensures r.Ok? ==> Lookup(container.fields, k) == Some(r.value)
  {
    match container
    case JObj(fs) => (match Lookup(fs, k) case Some(v) => Ok(v) case None => Err(KeyError))
    case _ => Err(TypeError)
  }

  /** `{"$ref": "#/definitions/" + name}`. */
  function RefTo(name: string): Json {
    JObj([("$ref", JStr("#/definitions/" + name))])
  }

  /** Every dict in the value has distinct keys, as a Python dict always does. */
  predicate WellFormed(j: Json) {
    match j
    case JArr(a) => forall i :: 0 <= i < |a| ==> WellFormed(a[i])
    case JObj(fs) => NoDup(Keys(fs)) && forall i :: 0 <= i < |fs| ==> WellFormed(fs[i].1)
    case _ => true
  }

  // ---------------------------------------------------------------------
  // Strings

  predicate IsSubstring(k: string, s: string) {
    exists i, j :: 0 <= i <= j <= |s| && s[i..j] == k
  }

  function Upper(c: char): char {
    if 'a' <= c <= 'z' then (c as int - 32) as char else c
  }

  function Lower(c: char): char {
    if 'A' <= c <= 'Z' then (c as int + 32) as char else c
  }

  /** Python's `str.capitalize` on ASCII letters: the first character upper
      case, every other one lower case; other characters are left alone. */
  function Capitalize(s: string): (r: string)
    ensures |r| == |s|
    ensures |s| > 0 ==> r[0] == Upper(s[0])
    ensures forall i :: 0 < i < |s| ==> r[i] == Lower(s[i])
  {
    if s == [] then [] else [Upper(s[0])] + seq(|s| - 1, i requires 0 <= i < |s| - 1 => Lower(s[i + 1]))
  }

  /** Capitalizing changes letters only, so a '/' stays where it was. */
  lemma CapitalizeKeepsSlashes(s: string)
    ensures '/' in Capitalize(s) <==> '/' in s
  {
    var r := Capitalize(s);
    if '/' in s {
      var i :| 0 <= i < |s| && s[i] == '/';
      assert r[i] == '/';
    }
    if '/' in r {
      var i :| 0 <= i < |r| && r[i] == '/';
      assert s[i] == '/';
    }
  }

  /** Python's `s.split("/")[-1]`: what follows the last '/', or all of `s`. */
  function LastSegment(s: string): (r: string)
    ensures '/' !in r
    ensures |r| <= |s| && r == s[|s| - |r|..]
    ensures |r| < |s| ==> s[|s| - |r| - 1] == '/'
  {
    if s == [] then []
    else if s[|s| - 1] == '/' then []
    else LastSegment(s[..|s| - 1]) + [s[|s| - 1]]
  }

  /** A reference written as `prefix + "/" + name` resolves to `name` exactly
      when `name` holds no '/'. */
  lemma {:induction false} LastSegmentAfterSlash(prefix: string, name: string)
    requires '/' !in name
    ensures LastSegment(prefix + "/" + name) == name
  {
    if name != [] {
      var s := prefix + "/" + name;
      assert s[..|s| - 1] == prefix + "/" + name[..|name| - 1];
      LastSegmentAfterSlash(prefix, name[..|name| - 1]);
    }
  }

  /** The characters Python's `str.strip()` removes, restricted to ASCII. */
  predicate IsSpace(c: char) {
    c == ' ' || 9 <= c as int <= 13 || 28 <= c as int <= 31
  }

  function StripLeft(s: string): (r: string)
    ensures |r| <= |s| && r == s[|s| - |r|..]
    ensures r != [] ==> !IsSpace(r[0])
    ensures forall i :: 0 <= i < |s| - |r| ==> IsSpace(s[i])
  {
    if s == [] then []
    else if IsSpace(s[0]) then StripLeft(s[1..])
    else s
  }

  function StripRight(s: string): (r: string)
    ensures |r| <= |s| && r == s[..|r|]
    ensures r != [] ==> !IsSpace(r[|r| - 1])
    ensures forall i :: |r| <= i < |s| ==> IsSpace(s[i])
  {
    if s == [] then []
    else if IsSpace(s[|s| - 1]) then StripRight(s[..|s| - 1])
    else s
  }

  /** The number of whitespace characters `s` starts with. */
  function Indent(s: string): (n: nat)
    ensures n <= |s|
    ensures forall k :: 0 <= k < n ==> IsSpace(s[k])
    ensures n < |s| ==> !IsSpace(s[n])
  {
    var l := StripLeft(s);
    assert l != [] ==> s[|s| - |l|] == l[0];
    |s| - |l|
  }

  /** Python's `str.strip()`: the text between the leading and the trailing
      whitespace (StripBetween). */
  function Strip(s: string): (r: string)
    ensures r != [] ==> !IsSpace(r[0]) && !IsSpace(r[|r| - 1])
    ensures r == [] <==> forall i :: 0 <= i < |s| ==> IsSpace(s[i])
    ensures (s == [] || (!IsSpace(s[0]) && !IsSpace(s[|s| - 1]))) ==> r == s
  {
    var l := StripLeft(s);
    var r := StripRight(l);
    assert r == [] ==> forall i :: 0 <= i < |s| ==> IsSpace(s[i]) by {
      if r == [] {
        assert l == [];
      }
    }
    r
  }

  /** The stripped text is the slice of `s` that starts after its leading
      whitespace and that only whitespace follows. */
  lemma StripBetween(s: string)
    ensures Indent(s) + |Strip(s)| <= |s|
    ensures Strip(s) == s[Indent(s)..Indent(s) + |Strip(s)|]
    ensures forall k :: Indent(s) + |Strip(s)| <= k < |s| ==> IsSpace(s[k])
  {
    var l := StripLeft(s);
    SpacedPrefixOfSuffix(s, Indent(s), l, StripRight(l));
  }

  /** A prefix of a suffix of `s` that only whitespace follows is a slice of
      `s` that only whitespace follows. */
  lemma SpacedPrefixOfSuffix(s: string, i: nat, l: string, r: string)
    requires i <= |s| && l == s[i..]
    requires |r| <= |l| && r == l[..|r|]
    requires forall j :: |r| <= j < |l| ==> IsSpace(l[j])
    ensures i + |r| <= |s| && r == s[i..i + |r|]
    ensures forall k :: i + |r| <= k < |s| ==> IsSpace(s[k])
  {
    forall k | i + |r| <= k < |s| ensures IsSpace(s[k]) {
      assert s[k] == l[k - i];
    }
  }

  /** `", ".join(parts)`. */
  function Join(parts: seq<string>): (r: string)
    ensures parts == [] ==> r == ""
    ensures |parts| == 1 ==> r == parts[0]
  {
    if parts == [] then ""
    else if |parts| == 1 then parts[0]
    else parts[0] + ", " + Join(parts[1..])
  }

  function DigitChar(d: nat): char
    requires d < 10
  {
    "0123456789"[d]
  }

  function NatToString(n: nat): (r: string)
    ensures |r| > 0 && r[0] != '-'
    decreases n
  {
    if n < 10 then [DigitChar(n)] else NatToString(n / 10) + [DigitChar(n % 10)]
  }

  /** `str(i)` for a Python int. */
  function IntToString(i: int): (r: string)
    ensures |r| > 0
    ensures (i < 0) <==> r[0] == '-'
  {
    if i < 0 then "-" + NatToString(-i) else NatToString(i)
  }
}
