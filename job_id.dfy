/**
 * The unique id under which the scheduler registers a job object with the trigger engine:
 * `database + ":" + holderDocumentName + "_" + objectNumber`, read from the current
 * database of the context. The scheduler relies on this id to keep one job per object.
 */
module JobIdentity {

  /** The decimal digit for `d`. */
  function DigitChar(d: nat): (c: char)
    requires d < 10
    ensures '0' <= c <= '9'
    ensures c as int - '0' as int == d
  {
    (d + '0' as int) as char
  }

  predicate IsDigits(s: string) {
    forall i :: 0 <= i < |s| ==> '0' <= s[i] <= '9'
  }

  /** The number a string of decimal digits denotes, most significant digit first. */
  function DigitsValue(s: string): nat
    requires IsDigits(s)
  {
    if s == [] then 0 else DigitsValue(s[..|s| - 1]) * 10 + (s[|s| - 1] as int - '0' as int)
  }

  /** Decimal rendering of a natural number, without leading zeros. */
  function NatToString(n: nat): (s: string)
    ensures |s| >= 1
    ensures forall i :: 0 <= i < |s| ==> '0' <= s[i] <= '9'
    decreases n
  {
    if n < 10 then [DigitChar(n)] else NatToString(n / 10) + [DigitChar(n % 10)]
  }

  /** Java's `String.valueOf(int)`: a minus sign exactly when `n` is negative, then decimal digits only. */
  function IntToString(n: int): (s: string)
    ensures |s| >= 1
    ensures (s[0] == '-') == (n < 0)
    ensures forall i :: 0 < i < |s| ==> '0' <= s[i] <= '9'
  {
    if n < 0 then "-" + NatToString(-n) else NatToString(n)
  }

  /** The digits of NatToString(n) denote `n`, and only 0 is written with a leading zero. */
  lemma {:induction false} NatToStringValue(n: nat)
    ensures IsDigits(NatToString(n)) && DigitsValue(NatToString(n)) == n
    ensures NatToString(n)[0] == '0' ==> n == 0
    decreases n
  {
    if n >= 10 {
      var p := NatToString(n / 10);
      NatToStringValue(n / 10);
      assert (p + [DigitChar(n % 10)])[..|p|] == p;
    }
  }

  /** The digits after the optional minus sign of IntToString(n) denote the magnitude of `n`, without leading zeros. */
  lemma IntToStringValue(n: int)
    ensures var s := IntToString(n);
            var digits := if n < 0 then s[1..] else s;
            |digits| >= 1 && IsDigits(digits)
            && DigitsValue(digits) == (if n < 0 then -n else n)
            && (digits[0] == '0' ==> n == 0)
  {
    if n < 0 {
      assert IntToString(n)[1..] == NatToString(-n);
      NatToStringValue(-n);
    } else {
      NatToStringValue(n);
    }
  }

  /** getObjectUniqueId: the engine-wide id of the job object `docName`/`number` seen from `database`. */
  function UniqueId(database: string, docName: string, number: int): (id: string)
    ensures |id| == |database| + 1 + |docName| + 1 + |IntToString(number)|
    ensures id[..|database|] == database && id[|database|] == ':'
    ensures id[|id| - |IntToString(number)|..] == IntToString(number)
    ensures id[|id| - |IntToString(number)| - 1] == '_'
  {
    database + ":" + docName + "_" + IntToString(number)
  }

  lemma {:induction false} NatToStringInjective(a: nat, b: nat)
    requires NatToString(a) == NatToString(b)
    ensures a == b
    decreases a
  {
    if a >= 10 && b >= 10 {
      var s, pa, pb := NatToString(a), NatToString(a / 10), NatToString(b / 10);
      assert s == pa + [DigitChar(a % 10)] == pb + [DigitChar(b % 10)];
      assert DigitChar(a % 10) == s[|s| - 1] == DigitChar(b % 10);
      assert pa == s[..|s| - 1] == pb;
      NatToStringInjective(a / 10, b / 10);
    }
  }

  lemma IntToStringInjective(a: int, b: int)
    requires IntToString(a) == IntToString(b)
    ensures a == b
  {
    var s := IntToString(a);
    if a < 0 && b < 0 {
      assert NatToString(-a) == s[1..] == NatToString(-b);
      NatToStringInjective(-a, -b);
    } else if a >= 0 && b >= 0 {
      NatToStringInjective(a, b);
    }
  }

  /** In `a + [sep] + b` with `sep` not in `a`, the first `sep` sits right after `a`. */
  lemma FirstSeparator(sep: char, a: string, b: string)
    requires sep !in a
    ensures (a + [sep] + b)[|a|] == sep
    ensures forall i :: 0 <= i < |a| ==> (a + [sep] + b)[i] != sep
  {
  }

  /** In `a + [sep] + b` with `sep` not in `b`, the last `sep` sits right before `b`. */
  lemma LastSeparator(sep: char, a: string, b: string)
    requires sep !in b
    ensures (a + [sep] + b)[|a|] == sep
    ensures forall i :: |a| < i < |a| + 1 + |b| ==> (a + [sep] + b)[i] != sep
  {
  }

  /** Splitting at the first occurrence of a separator that the prefix does not contain. */
  lemma SplitAtFirst(sep: char, a: string, b: string, a': string, b': string)
    requires sep !in a && sep !in a'
    requires a + [sep] + b == a' + [sep] + b'
    ensures a == a' && b == b'
  {
    var s := a + [sep] + b;
    FirstSeparator(sep, a, b);
    FirstSeparator(sep, a', b');
    assert |a| == |a'|;
    assert a == s[..|a|] == a';
    assert b == s[|a| + 1..] == b';
  }

  /** Splitting at the last occurrence of a separator that the suffix does not contain. */
  lemma SplitAtLast(sep: char, a: string, b: string, a': string, b': string)
    requires sep !in b && sep !in b'
    requires a + [sep] + b == a' + [sep] + b'
    ensures a == a' && b == b'
  {
    var s := a + [sep] + b;
    LastSeparator(sep, a, b);
    LastSeparator(sep, a', b');
    assert |a| == |a'|;
    assert a == s[..|a|] == a';
    assert b == s[|a| + 1..] == b';
  }

  /** The id read as the database, a colon and the rest. */
  lemma UniqueIdShape(database: string, docName: string, number: int)
    ensures UniqueId(database, docName, number) == database + [':'] + (docName + ['_'] + IntToString(number))
  {
  }

  /** Within one database, distinct job objects get distinct ids. */
  lemma UniqueIdInjectiveInWiki(database: string, name1: string, number1: int, name2: string, number2: int)
    requires UniqueId(database, name1, number1) == UniqueId(database, name2, number2)
    ensures name1 == name2 && number1 == number2
  {
    var s1, s2 := IntToString(number1), IntToString(number2);
    UniqueIdShape(database, name1, number1);
    UniqueIdShape(database, name2, number2);
    var t1, t2 := name1 + ['_'] + s1, name2 + ['_'] + s2;
    assert t1 == UniqueId(database, name1, number1)[|database| + 1..];
    assert t2 == UniqueId(database, name2, number2)[|database| + 1..];
    assert '_' !in s1 && '_' !in s2;
    SplitAtLast('_', name1, s1, name2, s2);
    IntToStringInjective(number1, number2);
  }

  /** Across databases whose names hold no ':', distinct job objects get distinct ids. */
  lemma UniqueIdInjective(db1: string, name1: string, number1: int, db2: string, name2: string, number2: int)
    requires ':' !in db1 && ':' !in db2
    requires UniqueId(db1, name1, number1) == UniqueId(db2, name2, number2)
    ensures db1 == db2 && name1 == name2 && number1 == number2
  {
    UniqueIdShape(db1, name1, number1);
    UniqueIdShape(db2, name2, number2);
    SplitAtFirst(':', db1, name1 + ['_'] + IntToString(number1), db2, name2 + ['_'] + IntToString(number2));
    UniqueIdInjectiveInWiki(db1, name1, number1, name2, number2);
  }

  /** The contrapositive used when jobs of one wiki are replayed one after the other. */
  lemma UniqueIdDistinctInWiki(database: string, name1: string, number1: int, name2: string, number2: int)
    ensures name1 != name2 ==> UniqueId(database, name1, number1) != UniqueId(database, name2, number2)
  {
    if UniqueId(database, name1, number1) == UniqueId(database, name2, number2) {
      UniqueIdInjectiveInWiki(database, name1, number1, name2, number2);
    }
  }
}
