/**
 * The order SQLite sorts text columns in (BINARY collation: character by
 * character, a proper prefix first), the lexicographic order of an
 * `ORDER BY k1, k2` clause built on it, and the row an
 * `ORDER BY ... DESC LIMIT 1` query returns.
 */
module Order {
  import opened Runtime

  /** `a < b` between two texts. */
  predicate StrLt(a: string, b: string)
    decreases |a|
  {
    b != [] && (a == [] || a[0] < b[0] || (a[0] == b[0] && StrLt(a[1..], b[1..])))
  }

  lemma {:induction false} StrLtIrreflexive(a: string)
    ensures !StrLt(a, a)
    decreases |a|
  {
    if a != [] {
      StrLtIrreflexive(a[1..]);
    }
  }

  lemma {:induction false} StrLtTransitive(a: string, b: string, c: string)
    requires StrLt(a, b) && StrLt(b, c)
    ensures StrLt(a, c)
    decreases |a|
  {
    if a != [] && a[0] == b[0] && b[0] == c[0] {
      StrLtTransitive(a[1..], b[1..], c[1..]);
    }
  }

  /** Two different texts are always ordered one way or the other. */
  lemma {:induction false} StrLtTotal(a: string, b: string)
    requires a != b
    ensures StrLt(a, b) || StrLt(b, a)
    decreases |a|
  {
    if a != [] && b != [] && a[0] == b[0] {
      StrLtTotal(a[1..], b[1..]);
    }
  }

  /** The order of `ORDER BY k1, k2, ...`: the first key that differs decides. */
  predicate KeyLt(a: seq<string>, b: seq<string>)
    decreases |a|
  {
    b != [] && (a == [] || StrLt(a[0], b[0]) || (a[0] == b[0] && KeyLt(a[1..], b[1..])))
  }

  lemma {:induction false} KeyLtIrreflexive(a: seq<string>)
    ensures !KeyLt(a, a)
    decreases |a|
  {
    if a != [] {
      StrLtIrreflexive(a[0]);
      KeyLtIrreflexive(a[1..]);
    }
  }

  lemma {:induction false} KeyLtTransitive(a: seq<string>, b: seq<string>, c: seq<string>)
    requires KeyLt(a, b) && KeyLt(b, c)
    ensures KeyLt(a, c)
    decreases |a|
  {
    if a != [] {
      if StrLt(a[0], b[0]) && StrLt(b[0], c[0]) {
        StrLtTransitive(a[0], b[0], c[0]);
      } else if a[0] == b[0] && b[0] == c[0] {
        KeyLtTransitive(a[1..], b[1..], c[1..]);
      }
    }
  }

  lemma {:induction false} KeyLtTotal(a: seq<string>, b: seq<string>)
    requires a != b
    ensures KeyLt(a, b) || KeyLt(b, a)
    decreases |a|
  {
    if a != [] && b != [] {
      if a[0] != b[0] {
        StrLtTotal(a[0], b[0]);
      } else {
        KeyLtTotal(a[1..], b[1..]);
      }
    }
  }

  /** "Not smaller" is transitive, so a running maximum stays a maximum. */
  lemma KeyNotLtTransitive(a: seq<string>, b: seq<string>, c: seq<string>)
    requires !KeyLt(a, b) && !KeyLt(b, c)
    ensures !KeyLt(a, c)
  {
    if KeyLt(a, c) {
      if a == b {
      } else if b == c {
      } else {
        KeyLtTotal(a, b);
        KeyLtTotal(b, c);
        KeyLtTransitive(c, b, a);
        KeyLtIrreflexive(a);
        KeyLtTransitive(a, c, a);
      }
    }
  }

  /**
   * `ORDER BY key DESC LIMIT 1` over the rows `s`: a row whose key no other
   * row exceeds (the first such row in table order), or None when `s` is
   * empty.
   */
  function LatestBy<T>(s: seq<T>, key: T -> seq<string>): (r: Option<T>)
    ensures r.None? <==> s == []
    ensures r.Some? ==> r.value in s
  {
    if s == [] then None
    else match LatestBy(s[1..], key)
      case None => Some(s[0])
      case Some(b) => if KeyLt(key(s[0]), key(b)) then Some(b) else Some(s[0])
  }

  /** No row has a key greater than the one returned. */
  lemma {:induction false} LatestByIsMaximal<T>(s: seq<T>, key: T -> seq<string>)
    requires s != []
    ensures forall x :: x in s ==> !KeyLt(key(LatestBy(s, key).value), key(x))
  {
    var r := LatestBy(s, key).value;
    if s[1..] == [] {
      assert s == [s[0]];
      KeyLtIrreflexive(key(s[0]));
    } else {
      LatestByIsMaximal(s[1..], key);
      var b := LatestBy(s[1..], key).value;
      forall x | x in s
        ensures !KeyLt(key(r), key(x))
      {
        if x == s[0] {
          if r == s[0] {
            KeyLtIrreflexive(key(x));
          } else {
            // r == b was chosen because key(s[0]) < key(b)
            if KeyLt(key(b), key(s[0])) {
              KeyLtTransitive(key(b), key(s[0]), key(b));
              KeyLtIrreflexive(key(b));
            }
          }
        } else {
          assert x in s[1..];
          if r != b {
            KeyNotLtTransitive(key(s[0]), key(b), key(x));
          }
        }
      }
    }
  }
}
