/** PHP values as the plugin's option code handles them, PHP arrays as ordered
    maps, and the handful of PHP conversions the code relies on: empty(),
    is_numeric(), the (int) and (float) casts and a strict in_array. */
module PhpValues {
  import opened Numerals

  /** A PHP value. An array is an ordered map from string keys to values:
      PHP keeps insertion order and each key at most once. */
  datatype Value =
    | Null
    | Bool(b: bool)
    | Int(i: int)
    | Float(f: real)
    | Str(s: string)
    | Arr(entries: seq<(string, Value)>)

  type Entries = seq<(string, Value)>

  /** The keys of an ordered array, in order, whatever its values are. */
  function Keys<V>(es: seq<(string, V)>): (ks: seq<string>)
    ensures |ks| == |es|
    ensures forall i :: 0 <= i < |es| ==> ks[i] == es[i].0
  {
    if es == [] then [] else [es[0].0] + Keys(es[1..])
  }

  function KeySet(es: Entries): set<string>
  {
    set i | 0 <= i < |es| :: es[i].0
  }

  /** Every key occurs once: the representation invariant of a PHP array. */
  predicate Distinct(es: Entries)
  {
    forall i, j :: 0 <= i < j < |es| ==> es[i].0 != es[j].0
  }

  /** Every key of a stands at the same position in b. */
  predicate KeyPrefix(a: Entries, b: Entries)
  {
    |a| <= |b| && forall j :: 0 <= j < |a| ==> b[j].0 == a[j].0
  }

  /** Position of key k, or |es| when k is absent. */
  function IndexOf(es: Entries, k: string): (i: nat)
    ensures i <= |es|
    ensures i < |es| ==> es[i].0 == k
    ensures i == |es| <==> k !in KeySet(es)
    ensures forall j :: 0 <= j < i ==> es[j].0 != k
  {
    if es == [] then 0
    else if es[0].0 == k then 0
    else
      var i := 1 + IndexOf(es[1..], k);
      assert forall j :: 1 <= j < |es| ==> es[j].0 == es[1..][j - 1].0;
      assert KeySet(es) == {es[0].0} + KeySet(es[1..]) by {
        forall x | x in KeySet(es) ensures x in {es[0].0} + KeySet(es[1..]) {
          var j :| 0 <= j < |es| && es[j].0 == x;
          if j > 0 { assert es[1..][j - 1].0 == x; }
        }
      }
      i
  }

  /** $a[$k] read: the value under the first entry with key k, or null for
      a missing key. */
  function Get(es: Entries, k: string): Value
  {
    if es == [] then Null
    else if es[0].0 == k then es[0].1
    else Get(es[1..], k)
  }

  /** A missing key reads as null; so a key that reads as anything else is there. */
  lemma {:induction false} GetMissing(es: Entries, k: string)
    ensures k !in KeySet(es) ==> Get(es, k) == Null
  {
    if es != [] {
      KeySetTail(es);
      GetMissing(es[1..], k);
    }
  }

  /** The keys of a non-empty array are its first key and those of the rest. */
  lemma KeySetTail(es: Entries)
    requires es != []
    ensures KeySet(es) == {es[0].0} + KeySet(es[1..])
  {
    forall x | x in KeySet(es) ensures x in {es[0].0} + KeySet(es[1..]) {
      var j :| 0 <= j < |es| && es[j].0 == x;
      if j > 0 { assert es[1..][j - 1].0 == x; }
    }
    forall x | x in KeySet(es[1..]) ensures x in KeySet(es) {
      var j :| 0 <= j < |es[1..]| && es[1..][j].0 == x;
      assert es[j + 1].0 == x;
    }
  }

  /** Reading the first entry with a given key. */
  lemma {:induction false} GetAt(es: Entries, i: nat)
    requires i < |es| && forall j :: 0 <= j < i ==> es[j].0 != es[i].0
    ensures Get(es, es[i].0) == es[i].1
  {
    if i > 0 {
      assert es[1..][i - 1] == es[i];
      GetAt(es[1..], i - 1);
    }
  }

  /** In an array with distinct keys, reading the key at position i gives its value. */
  lemma GetDistinct(es: Entries, i: nat)
    requires Distinct(es) && i < |es|
    ensures Get(es, es[i].0) == es[i].1
  {
    GetAt(es, i);
  }

  /** Get reads the entry IndexOf finds. */
  lemma {:induction false} GetIndexOf(es: Entries, k: string)
    ensures Get(es, k) == if IndexOf(es, k) < |es| then es[IndexOf(es, k)].1 else Null
  {
    if es != [] && es[0].0 != k {
      GetIndexOf(es[1..], k);
    }
  }

  /** isset($a[$k]): the key is there and its value is not null. */
  predicate IsSet(es: Entries, k: string)
  {
    Get(es, k) != Null
  }

  /** $a[$k] = $v: an existing key is overwritten where it stands; a new key
      is appended at the end. */
  function Put(es: Entries, k: string, v: Value): Entries
  {
    if es == [] then [(k, v)]
    else if es[0].0 == k then [(k, v)] + es[1..]
    else [es[0]] + Put(es[1..], k, v)
  }

  /** After $a[$k] = $v, reading k gives v and every other key reads as before. */
  lemma {:induction false} PutGet(es: Entries, k: string, v: Value, k': string)
    ensures Get(Put(es, k, v), k') == if k' == k then v else Get(es, k')
  {
    if es != [] && es[0].0 != k {
      PutGet(es[1..], k, v, k');
      assert Put(es, k, v)[1..] == Put(es[1..], k, v);
    } else if es != [] {
      assert Put(es, k, v)[1..] == es[1..];
    }
  }

  /** Put adds k to the key set and nothing else. */
  lemma PutKeySet(es: Entries, k: string, v: Value)
    ensures KeySet(Put(es, k, v)) == KeySet(es) + {k}
  {
    PutIndexOf(es, k, v);
    if IndexOf(es, k) < |es| {
      OverwriteKeys(es, IndexOf(es, k), v);
    } else {
      AppendKeys(es, k, v);
    }
  }

  /** Put keeps every existing key where it stands and appends a new one at the end. */
  lemma PutKeys(es: Entries, k: string, v: Value)
    ensures Keys(Put(es, k, v)) == if k in KeySet(es) then Keys(es) else Keys(es) + [k]
  {
    PutIndexOf(es, k, v);
    if IndexOf(es, k) < |es| {
      OverwriteKeys(es, IndexOf(es, k), v);
    } else {
      AppendKeys(es, k, v);
    }
  }

  /** Put keeps the keys of an array distinct. */
  lemma PutDistinct(es: Entries, k: string, v: Value)
    requires Distinct(es)
    ensures Distinct(Put(es, k, v))
  {
    PutIndexOf(es, k, v);
    if IndexOf(es, k) < |es| {
      OverwriteKeys(es, IndexOf(es, k), v);
    } else {
      AppendKeys(es, k, v);
    }
  }

  /** Put moves no existing key. */
  lemma PutPrefix(es: Entries, k: string, v: Value)
    ensures KeyPrefix(es, Put(es, k, v))
  {
    PutIndexOf(es, k, v);
    if IndexOf(es, k) < |es| {
      OverwriteKeys(es, IndexOf(es, k), v);
    } else {
      AppendKeys(es, k, v);
    }
  }

  /** Put overwrites the entry IndexOf finds, or appends when there is none. */
  lemma {:induction false} PutIndexOf(es: Entries, k: string, v: Value)
    ensures Put(es, k, v) == if IndexOf(es, k) < |es| then es[IndexOf(es, k) := (k, v)] else es + [(k, v)]
  {
    if es != [] && es[0].0 != k {
      PutIndexOf(es[1..], k, v);
      var j := IndexOf(es[1..], k);
      if j < |es[1..]| {
        assert [es[0]] + es[1..][j := (k, v)] == es[j + 1 := (k, v)];
      } else {
        assert [es[0]] + (es[1..] + [(k, v)]) == es + [(k, v)];
      }
    } else if es != [] {
      assert [(k, v)] + es[1..] == es[0 := (k, v)];
    }
  }

  lemma OverwriteKeys(es: Entries, i: nat, v: Value)
    requires i < |es|
    ensures var r := es[i := (es[i].0, v)];
      && KeySet(r) == KeySet(es)
      && Keys(r) == Keys(es)
      && (Distinct(es) ==> Distinct(r))
      && KeyPrefix(es, r)
  {
    var r := es[i := (es[i].0, v)];
    assert forall j :: 0 <= j < |r| ==> r[j].0 == es[j].0;
  }

  lemma AppendKeys(es: Entries, k: string, v: Value)
    requires k !in KeySet(es)
    ensures var r := es + [(k, v)];
      && KeySet(r) == KeySet(es) + {k}
      && Keys(r) == Keys(es) + [k]
      && (Distinct(es) ==> Distinct(r))
      && KeyPrefix(es, r)
  {
    var r := es + [(k, v)];
    assert forall j :: 0 <= j < |es| ==> r[j] == es[j];
    assert Keys(r) == Keys(es) + [k];
    assert KeySet(r) == KeySet(es) + {k} by {
      forall x | x in KeySet(r) ensures x in KeySet(es) + {k} {
        var j :| 0 <= j < |r| && r[j].0 == x;
        if j < |es| { assert es[j].0 == x; }
      }
      assert r[|es|].0 == k;
    }
  }

  /** IndexOf only looks at keys. */
  lemma {:induction false} IndexOfSameKeys(a: Entries, b: Entries, k: string)
    requires |a| == |b| && forall j :: 0 <= j < |a| ==> a[j].0 == b[j].0
    ensures IndexOf(a, k) == IndexOf(b, k)
  {
    if a != [] && a[0].0 != k {
      IndexOfSameKeys(a[1..], b[1..], k);
    }
  }

  /** PHP's empty(): null, false, 0, 0.0, "", "0" and the empty array. */
  predicate Empty(v: Value)
  {
    match v
    case Null => true
    case Bool(b) => !b
    case Int(i) => i == 0
    case Float(f) => f == 0.0
    case Str(s) => s == "" || s == "0"
    case Arr(es) => es == []
  }

  /** PHP's is_numeric(): numbers, and strings that are decimal numbers. */
  predicate IsNumeric(v: Value)
  {
    match v
    case Int(_) => true
    case Float(_) => true
    case Str(s) => IsNumericString(s)
    case _ => false
  }

  /** PHP's (int) cast. */
  function IntCast(v: Value): int
  {
    match v
    case Null => 0
    case Bool(b) => if b then 1 else 0
    case Int(i) => i
    case Float(f) => Truncate(f)
    case Str(s) => IntPrefix(s)
    case Arr(es) => if es == [] then 0 else 1
  }

  /** PHP's (float) cast. */
  function FloatCast(v: Value): real
  {
    match v
    case Null => 0.0
    case Bool(b) => if b then 1.0 else 0.0
    case Int(i) => i as real
    case Float(f) => f
    case Str(s) => RealPrefix(s)
    case Arr(es) => if es == [] then 0.0 else 1.0
  }

  /** in_array($v, $allowed, true) for a list of strings. */
  predicate StrictlyIn(v: Value, allowed: seq<string>)
  {
    v.Str? && v.s in allowed
  }

  /** For every value, the (int) cast is the truncation of the (float) cast. */
  lemma IntCastTruncatesFloatCast(v: Value)
    ensures IntCast(v) == Truncate(FloatCast(v))
  {
    match v
    case Str(s) => TruncateRealPrefix(s);
    case Int(i) => assert (i as real).Floor == i; assert (-(i as real)).Floor == -i;
    case _ =>
  }
}
