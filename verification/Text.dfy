/** Splitting at a separator and joining again. */
module Text {

  /** Python's `split`: one part more than there are separators. */
  function Split<T(==)>(s: seq<T>, sep: T): (r: seq<seq<T>>)
    ensures r != []
  {
    if s == [] then [[]]
    else
      var r := Split(s[1..], sep);
      if s[0] == sep then [[]] + r else [[s[0]] + r[0]] + r[1..]
  }

  function Join<T>(parts: seq<seq<T>>, sep: T): seq<T>
    requires parts != []
  {
    if |parts| == 1 then parts[0] else parts[0] + [sep] + Join(parts[1..], sep)
  }

  lemma {:induction false} JoinSplit<T>(s: seq<T>, sep: T)
    ensures Join(Split(s, sep), sep) == s
  {
    if s != [] {
      JoinSplit(s[1..], sep);
      var r := Split(s[1..], sep);
      if s[0] == sep {
        assert ([[]] + r)[1..] == r;
        assert s == [sep] + s[1..];
      } else {
        var t := [[s[0]] + r[0]] + r[1..];
        assert t[1..] == r[1..];
        assert s == [s[0]] + s[1..];
      }
    }
  }

  lemma {:induction false} SplitPlain<T>(part: seq<T>, sep: T)
    requires sep !in part
    ensures Split(part, sep) == [part]
  {
    if part != [] {
      SplitPlain(part[1..], sep);
      assert part == [part[0]] + part[1..];
    }
  }

  lemma {:induction false} SplitBehind<T>(part: seq<T>, rest: seq<T>, sep: T)
    requires sep !in part
    ensures Split(part + [sep] + rest, sep) == [part] + Split(rest, sep)
  {
    var s := part + [sep] + rest;
    if part == [] {
      assert s[1..] == rest;
    } else {
      assert s[1..] == part[1..] + [sep] + rest;
      SplitBehind(part[1..], rest, sep);
      assert part == [part[0]] + part[1..];
    }
  }

  lemma {:induction false} SplitJoin<T>(parts: seq<seq<T>>, sep: T)
    requires parts != [] && forall p | p in parts :: sep !in p
    ensures Split(Join(parts, sep), sep) == parts
  {
    assert parts[0] in parts;
    if |parts| == 1 {
      SplitPlain(parts[0], sep);
    } else {
      SplitJoin(parts[1..], sep);
      SplitBehind(parts[0], Join(parts[1..], sep), sep);
    }
  }

  function Front<T>(s: seq<T>): seq<T>
    requires s != []
  {
    s[..|s| - 1]
  }

  function Last<T>(s: seq<T>): T
    requires s != []
  {
    s[|s| - 1]
  }

  lemma SplitCons<T>(c: T, s: seq<T>, sep: T)
    ensures Split([c] + s, sep) ==
            if c == sep then [[]] + Split(s, sep) else [[c] + Split(s, sep)[0]] + Split(s, sep)[1..]
  {
    assert ([c] + s)[1..] == s;
  }

  /** Splitting a longer text: the complete parts stay, and only the last one is split again. */
  lemma {:induction false} SplitMore<T>(s: seq<T>, more: seq<T>, sep: T)
    ensures Split(s + more, sep) == Front(Split(s, sep)) + Split(Last(Split(s, sep)) + more, sep)
  {
    hide Split, Front, Last;
    if s == [] {
      assert s + more == more;
      SplitNone(more, sep);
    } else {
      var c, rest := s[0], s[1..];
      assert s == [c] + rest && s + more == [c] + (rest + more);
      SplitMore(rest, more, sep);
      SplitCons(c, rest, sep);
      SplitCons(c, rest + more, sep);
      var r := Split(rest, sep);
      if c == sep {
        FrontLast([], r);
        assert [[]] + (Front(r) + Split(Last(r) + more, sep)) == ([[]] + Front(r)) + Split(Last(r) + more, sep);
      } else {
        ContinueFirst(c, r, more, sep);
      }
    }
  }

  lemma SplitNone<T>(more: seq<T>, sep: T)
    ensures Split([], sep) == [[]]
    ensures Front(Split([], sep)) + Split(Last(Split([], sep)) + more, sep) == Split(more, sep)
  {
    assert [] + more == more;
  }

  lemma ContinueFirst<T>(c: T, r: seq<seq<T>>, more: seq<T>, sep: T)
    requires r != [] && c != sep
    ensures var whole := Front(r) + Split(Last(r) + more, sep);
            var grown := [[c] + r[0]] + r[1..];
            [[c] + whole[0]] + whole[1..] == Front(grown) + Split(Last(grown) + more, sep)
  {
    if |r| == 1 {
      assert [c] + r[0] + more == [c] + (r[0] + more);
      SplitCons(c, r[0] + more, sep);
    } else {
      FrontLast([c] + r[0], r[1..]);
      FrontLast(r[0], r[1..]);
      assert r == [r[0]] + r[1..];
    }
  }

  lemma FrontLast<T>(x: T, r: seq<T>)
    requires r != []
    ensures Front([x] + r) == [x] + Front(r) && Last([x] + r) == Last(r)
  {
  }

  /** No part contains the separator. */
  lemma {:induction false} PartsPlain<T>(s: seq<T>, sep: T)
    ensures forall p | p in Split(s, sep) :: sep !in p
  {
    if s != [] {
      PartsPlain(s[1..], sep);
      var r := Split(s[1..], sep);
      assert r[0] in r;
    }
  }

  lemma Regroup<T>(whole: seq<T>, front: seq<T>, rest: seq<T>, more: seq<T>, last: T)
    requires whole == front + rest && rest == more + [last]
    ensures whole != [] && Front(whole) == front + more && Last(whole) == last && last in whole
  {
    assert whole == (front + more) + [last];
  }

  /** A number in decimal digits. */
  function Decimal(n: nat): (r: string)
    ensures r != "" && forall c | c in r :: '0' <= c <= '9'
  {
    if n < 10 then [Digit(n)] else Decimal(n / 10) + [Digit(n % 10)]
  }

  function Digit(n: nat): (c: char)
    requires n < 10
    ensures '0' <= c <= '9' && c as int == '0' as int + n
  {
    ('0' as int + n) as char
  }

  lemma {:induction false} DecimalIsInjective(m: nat, n: nat)
    requires Decimal(m) == Decimal(n)
    ensures m == n
  {
    var a, b := Decimal(m), Decimal(n);
    assert a[|a| - 1] == b[|b| - 1];
    assert m % 10 == n % 10;
    if m >= 10 && n >= 10 {
      assert a[..|a| - 1] == Decimal(m / 10) && b[..|b| - 1] == Decimal(n / 10);
      DecimalIsInjective(m / 10, n / 10);
    }
  }
}
