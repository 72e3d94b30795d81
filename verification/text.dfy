/** Words, lines, decimal numbers and dotted addresses, with the readers that undo the writers. */
module Text {
  import opened Options

  // ----- Splitting and joining -----

  predicate Free(s: string, sep: char) {
    forall i | 0 <= i < |s| :: s[i] != sep
  }

  function Join(words: seq<string>, sep: char): string {
    if |words| == 0 then "" else if |words| == 1 then words[0] else words[0] + [sep] + Join(words[1..], sep)
  }

  /** The text up to the first separator, and the rest after it if there is one. */
  function Cut(s: string, sep: char): (r: (string, Option<string>))
    ensures r.1.Some? ==> |r.1.value| < |s|
  {
    if s == "" then ("", None)
    else if s[0] == sep then ("", Some(s[1..]))
    else var (head, rest) := Cut(s[1..], sep); ([s[0]] + head, rest)
  }

  function Split(s: string, sep: char): seq<string>
    decreases |s|
  {
    var (head, rest) := Cut(s, sep);
    if rest.None? then [head] else [head] + Split(rest.value, sep)
  }

  lemma {:induction false} CutWord(w: string, sep: char)
    requires Free(w, sep)
    ensures Cut(w, sep) == (w, None)
  {
    if w != "" {
      CutWord(w[1..], sep);
      assert [w[0]] + w[1..] == w;
    }
  }

  lemma {:induction false} CutFirst(w: string, rest: string, sep: char)
    requires Free(w, sep)
    ensures Cut(w + [sep] + rest, sep) == (w, Some(rest))
  {
    var s := w + [sep] + rest;
    if w == "" {
      assert s[1..] == rest;
    } else {
      CutFirst(w[1..], rest, sep);
      assert s[1..] == w[1..] + [sep] + rest;
      assert [w[0]] + w[1..] == w;
    }
  }

  /** Splitting undoes joining. */
  lemma {:induction false} SplitJoin(words: seq<string>, sep: char)
    requires |words| > 0 && forall w | w in words :: Free(w, sep)
    ensures Split(Join(words, sep), sep) == words
  {
    if |words| == 1 {
      CutWord(words[0], sep);
    } else {
      CutFirst(words[0], Join(words[1..], sep), sep);
      SplitJoin(words[1..], sep);
    }
  }

  lemma {:induction false} JoinFree(words: seq<string>, sep: char, other: char)
    requires sep != other && forall w | w in words :: Free(w, other)
    ensures Free(Join(words, sep), other)
  {
    if |words| > 0 {
      assert words[0] in words;
    }
    if |words| > 1 {
      JoinFree(words[1..], sep, other);
    }
  }

  // ----- Decimal numbers -----

  function Digit(d: nat): char
    requires d < 10
  {
    "0123456789"[d]
  }

  function DigitValue(c: char): Option<nat> {
    if '0' <= c <= '9' then Some((c - '0') as nat) else None
  }

  function Decimal(n: nat): (s: string)
    ensures |s| > 0
  {
    if n < 10 then [Digit(n)] else Decimal(n / 10) + [Digit(n % 10)]
  }

  function Number(s: string): Option<nat> {
    if s == "" then None
    else
      var last := DigitValue(s[|s| - 1]);
      if last.None? then None
      else if |s| == 1 then last
      else
        var front := Number(s[..|s| - 1]);
        if front.None? then None else Some(front.value * 10 + last.value)
  }

  lemma DigitReads(d: nat)
    requires d < 10
    ensures DigitValue(Digit(d)) == Some(d)
    ensures Digit(d) != '.' && Digit(d) != '/' && Digit(d) != ' ' && Digit(d) != '\n'
  {
  }

  lemma {:induction false} DecimalReads(n: nat)
    ensures Number(Decimal(n)) == Some(n)
    ensures Free(Decimal(n), '.') && Free(Decimal(n), '/') && Free(Decimal(n), ' ') && Free(Decimal(n), '\n')
  {
    if n < 10 {
      DigitReads(n);
    } else {
      var s := Decimal(n / 10) + [Digit(n % 10)];
      DecimalReads(n / 10);
      DigitReads(n % 10);
      assert s[..|s| - 1] == Decimal(n / 10);
    }
  }

  // ----- IPv4 addresses -----

  const ADDRESSES: nat := 0x1_0000_0000

  function Octets(a: nat): (b: seq<nat>)
    requires a < ADDRESSES
    ensures |b| == 4 && forall i | 0 <= i < 4 :: b[i] < 256
  {
    [a / 0x100_0000, a / 0x1_0000 % 256, a / 256 % 256, a % 256]
  }

  function Parts(a: nat): (words: seq<string>)
    requires a < ADDRESSES
    ensures |words| == 4
  {
    var b := Octets(a);
    [Decimal(b[0]), Decimal(b[1]), Decimal(b[2]), Decimal(b[3])]
  }

  function Dotted(a: nat): string
    requires a < ADDRESSES
  {
    Join(Parts(a), '.')
  }

  /** The address a canonical dotted text denotes. */
  function Address(s: string): (a: Option<nat>)
    ensures a.Some? ==> a.value < ADDRESSES && Dotted(a.value) == s
  {
    var parts := Split(s, '.');
    if |parts| != 4 then None
    else
      var (p, q, r, t) := (Number(parts[0]), Number(parts[1]), Number(parts[2]), Number(parts[3]));
      if p.None? || q.None? || r.None? || t.None? then None
      else
        var a := p.value * 0x100_0000 + q.value * 0x1_0000 + r.value * 256 + t.value;
        if a < ADDRESSES && Dotted(a) == s then Some(a) else None
  }

  lemma OctetsSum(a: nat)
    requires a < ADDRESSES
    ensures var b := Octets(a); b[0] * 0x100_0000 + b[1] * 0x1_0000 + b[2] * 256 + b[3] == a
  {
  }

  lemma PartsRead(a: nat)
    requires a < ADDRESSES
    ensures forall i | 0 <= i < 4 :: Number(Parts(a)[i]) == Some(Octets(a)[i])
    ensures forall w | w in Parts(a) :: Free(w, '.') && Free(w, ' ') && Free(w, '\n') && Free(w, '/')
  {
    hide Decimal, Number, Free, Octets;
    var b := Octets(a);
    DecimalReads(b[0]);
    DecimalReads(b[1]);
    DecimalReads(b[2]);
    DecimalReads(b[3]);
  }

  /** Every address is read back from its text, which holds no blank, newline or slash. */
  lemma DottedReads(a: nat)
    requires a < ADDRESSES
    ensures Address(Dotted(a)) == Some(a)
    ensures Free(Dotted(a), ' ') && Free(Dotted(a), '\n') && Free(Dotted(a), '/')
  {
    hide Decimal, Number, Free, Octets, Split, Join;
    PartsRead(a);
    SplitJoin(Parts(a), '.');
    OctetsSum(a);
    JoinFree(Parts(a), '.', ' ');
    JoinFree(Parts(a), '.', '\n');
    JoinFree(Parts(a), '.', '/');
  }

  // ----- Alphabetical order -----

  predicate Before(s: string, t: string) {
    t != "" && (s == "" || s[0] < t[0] || (s[0] == t[0] && Before(s[1..], t[1..])))
  }

  lemma {:induction false} BeforeTotal(s: string, t: string)
    ensures s == t || Before(s, t) || Before(t, s)
    ensures !(Before(s, t) && Before(t, s)) && !Before(s, s)
  {
    if s != "" && t != "" {
      BeforeTotal(s[1..], t[1..]);
      if s[0] == t[0] && s[1..] == t[1..] {
        assert s == [s[0]] + s[1..] == t;
      }
    }
    if s != "" {
      BeforeTotal(s[1..], s[1..]);
    }
  }

  lemma {:induction false} BeforeTransitive(s: string, t: string, u: string)
    requires Before(s, t) && Before(t, u)
    ensures Before(s, u)
  {
    if s != "" && s[0] == t[0] && t[0] == u[0] {
      BeforeTransitive(s[1..], t[1..], u[1..]);
    }
  }

  /** Strictly ascending, so without repetition. */
  predicate Ascending(s: seq<string>) {
    forall i, j | 0 <= i < j < |s| :: Before(s[i], s[j])
  }

  /** Adds a word to a list kept in order, once. */
  function Insert(w: string, s: seq<string>): (r: seq<string>)
    requires Ascending(s)
    ensures Ascending(r)
    ensures forall x :: x in r <==> x == w || x in s
    ensures w in s ==> r == s
    ensures |r| <= |s| + 1
  {
    if s == [] then [w]
    else
      BeforeTotal(w, s[0]);
      if w == s[0] then s
      else if Before(w, s[0]) then
        InsertFirst(w, s);
        [w] + s
      else
        InsertLater(w, s);
        [s[0]] + Insert(w, s[1..])
  }

  lemma InsertFirst(w: string, s: seq<string>)
    requires Ascending(s) && s != [] && Before(w, s[0])
    ensures Ascending([w] + s) && w !in s
  {
    forall i | 0 <= i < |s|
      ensures Before(w, s[i]) && w != s[i]
    {
      if i > 0 {
        BeforeTransitive(w, s[0], s[i]);
      }
      BeforeTotal(w, s[i]);
    }
  }

  lemma InsertLater(w: string, s: seq<string>)
    requires Ascending(s) && s != [] && Before(s[0], w)
    ensures Ascending(s[1..]) && s[0] !in s[1..]
    ensures forall r: seq<string> | Ascending(r) && (forall x | x in r :: x == w || x in s[1..]) ::
              Ascending([s[0]] + r)
  {
    forall x | x in s[1..]
      ensures Before(s[0], x) && x != s[0]
    {
      BeforeTotal(s[0], x);
    }
  }

  lemma AscendingFirst(s: seq<string>, x: string)
    requires Ascending(s) && s != []
    ensures x in s ==> x == s[0] || Before(s[0], x)
    ensures x in s[1..] <==> x in s && x != s[0]
  {
    BeforeTotal(s[0], x);
    if x in s && x != s[0] {
      var i :| 0 <= i < |s| && s[i] == x;
      assert s[1..][i - 1] == x;
    }
  }

  /** The only ascending list with given elements. */
  lemma {:induction false} AscendingUnique(s: seq<string>, t: seq<string>)
    requires Ascending(s) && Ascending(t) && forall x :: x in s <==> x in t
    ensures s == t
  {
    assert s != [] ==> s[0] in s;
    assert t != [] ==> t[0] in t;
    if s != [] && t != [] {
      AscendingFirst(s, t[0]);
      AscendingFirst(t, s[0]);
      BeforeTotal(s[0], t[0]);
      forall x
        ensures x in s[1..] <==> x in t[1..]
      {
        AscendingFirst(s, x);
        AscendingFirst(t, x);
      }
      AscendingUnique(s[1..], t[1..]);
    }
  }
}
