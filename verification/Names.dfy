/** Decimal numerals, the names of derived objects, and DNS labels. */
module Names {
  import opened Types

  const WORKER_INFIX := "-worker-"
  const LAUNCHER_SUFFIX := "-launcher"
  const CONFIG_SUFFIX := "-config"
  const SSH_SUFFIX := "-ssh"

  /* ---- Decimal numerals ---- */

  function Digit(d: nat): char
    requires d < 10
  {
    '0' + d as char
  }

  predicate IsDigit(c: char) { '0' <= c <= '9' }

  function DigitOf(c: char): (d: nat)
    requires IsDigit(c)
    ensures d < 10 && Digit(d) == c
  {
    c as int - '0' as int
  }

  function Itoa(n: nat): string {
    if n < 10 then [Digit(n)] else Itoa(n / 10) + [Digit(n % 10)]
  }

  /** Go's %d for an int. */
  function FormatInt(z: int): string {
    if z < 0 then "-" + Itoa(-z) else Itoa(z)
  }

  function DigitsValue(s: string): nat
    requires forall c :: c in s ==> IsDigit(c)
  {
    if s == [] then 0
    else
      assert s[|s| - 1] in s;
      10 * DigitsValue(s[..|s| - 1]) + DigitOf(s[|s| - 1])
  }

  predicate IsNumeral(s: string) { s != [] && forall c :: c in s ==> IsDigit(c) }

  const INT64_LIMIT: int := 0x8000_0000_0000_0000

  /** Go's strconv.Atoi on a 64-bit platform: an optional sign, decimal digits, in the range of int. */
  function Atoi(s: string): Option<int> {
    if s != [] && s[0] in {'+', '-'} then
      if !IsNumeral(s[1..]) then None
      else
        var m: int := DigitsValue(s[1..]);
        var v := if s[0] == '-' then -m else m;
        if -INT64_LIMIT <= v < INT64_LIMIT then Some(v) else None
    else if IsNumeral(s) && DigitsValue(s) < INT64_LIMIT then Some(DigitsValue(s))
    else None
  }

  lemma {:induction false} ItoaRoundTrip(n: nat)
    ensures IsNumeral(Itoa(n)) && DigitsValue(Itoa(n)) == n
  {
    if n >= 10 {
      ItoaRoundTrip(n / 10);
      assert Itoa(n)[..|Itoa(n)| - 1] == Itoa(n / 10);
    } else {
      assert Itoa(n)[..0] == [];
    }
  }

  lemma AtoiOfItoa(n: nat)
    requires n < INT64_LIMIT
    ensures Atoi(Itoa(n)) == Some(n)
  {
    ItoaRoundTrip(n);
    assert Itoa(n)[0] in Itoa(n);
  }

  /** Atoi reads a numeral with a sign or without one, as far as the range of int goes, and nothing else. */
  lemma AtoiReads(s: string, d: string)
    requires IsNumeral(d)
    ensures var v: int := DigitsValue(d);
            && (s == d || s == "+" + d ==> Atoi(s) == if v < 0x8000_0000_0000_0000 then Some(v) else None)
            && (s == "-" + d ==> Atoi(s) == if v <= 0x8000_0000_0000_0000 then Some(-v) else None)
    ensures Atoi(s).Some? ==> IsNumeral(s) || (s != "" && s[0] in {'+', '-'} && IsNumeral(s[1..]))
  {
    hide DigitsValue;
    assert d[0] in d;
    assert ("+" + d)[1..] == d && ("-" + d)[1..] == d;
  }

  lemma {:induction false} ItoaLengthMonotone(m: nat, n: nat)
    requires m <= n
    ensures 1 <= |Itoa(m)| <= |Itoa(n)|
  {
    if m >= 10 {
      ItoaLengthMonotone(m / 10, n / 10);
    } else if n >= 10 {
      ItoaLengthMonotone(0, n / 10);
    }
  }

  /* ---- Object names ---- */

  function WorkerName(job: string, index: nat): string {
    job + WORKER_INFIX + Itoa(index)
  }

  function LauncherName(job: string): string { job + LAUNCHER_SUFFIX }

  function WorkerKey(key: Key, index: nat): Key { Key(key.namespace, WorkerName(key.name, index)) }
  function LauncherKey(key: Key): Key { Key(key.namespace, LauncherName(key.name)) }
  function ConfigKey(key: Key): Key { Key(key.namespace, key.name + CONFIG_SUFFIX) }
  function SecretKey(key: Key): Key { Key(key.namespace, key.name + SSH_SUFFIX) }

  lemma LastDash(u: string, d: string)
    requires IsNumeral(d)
    ensures (u + "-" + d)[|u|] == '-'
    ensures forall k :: |u| < k < |u + "-" + d| ==> (u + "-" + d)[k] != '-'
  {
    forall k | |u| < k < |u + "-" + d| ensures (u + "-" + d)[k] != '-' {
      assert (u + "-" + d)[k] == d[k - |u| - 1];
      assert d[k - |u| - 1] in d;
    }
  }

  /** A numeral after a dash can be cut off in only one way. */
  lemma NumeralSuffixUnique(u: string, d: string, v: string, e: string)
    requires IsNumeral(d) && IsNumeral(e)
    requires u + "-" + d == v + "-" + e
    ensures u == v && d == e
  {
    var s, t := u + "-" + d, v + "-" + e;
    LastDash(u, d);
    LastDash(v, e);
    assert u == s[..|u|] == t[..|v|] == v;
    assert d == s[|u| + 1..] == t[|v| + 1..] == e;
  }

  lemma WorkerNameInjective(a: string, i: nat, b: string, j: nat)
    ensures WorkerName(a, i) == WorkerName(b, j) <==> a == b && i == j
  {
    if WorkerName(a, i) == WorkerName(b, j) {
      ItoaRoundTrip(i);
      ItoaRoundTrip(j);
      assert WorkerName(a, i) == (a + "-worker") + "-" + Itoa(i);
      assert WorkerName(b, j) == (b + "-worker") + "-" + Itoa(j);
      NumeralSuffixUnique(a + "-worker", Itoa(i), b + "-worker", Itoa(j));
      SuffixCancels(a, b, "-worker");
    }
  }

  lemma WorkerKeyInjective(a: Key, i: nat, b: Key, j: nat)
    ensures WorkerKey(a, i) == WorkerKey(b, j) <==> a == b && i == j
  {
    WorkerNameInjective(a.name, i, b.name, j);
  }

  lemma SuffixCancels(a: string, b: string, suffix: string)
    ensures a + suffix == b + suffix <==> a == b
  {
    if a + suffix == b + suffix {
      assert a == (a + suffix)[..|a|] == (b + suffix)[..|b|] == b;
    }
  }

  lemma WorkerIsNotLauncher(a: string, i: nat, b: string)
    ensures WorkerName(a, i) != LauncherName(b)
  {
    ItoaRoundTrip(i);
    var w, l := WorkerName(a, i), LauncherName(b);
    var d := Itoa(i);
    assert w[|w| - 1] == d[|d| - 1];
    assert IsDigit(d[|d| - 1]);
    assert l[|l| - 1] == 'r';
  }

  /* ---- DNS labels (section 2.3.1 of RFC 1035, lower case, at most 63 octets) ---- */

  const DNS_LABEL_LIMIT := 63

  predicate IsLower(c: char) { 'a' <= c <= 'z' }
  predicate IsLabelChar(c: char) { IsLower(c) || IsDigit(c) || c == '-' }

  predicate IsDnsLabel(s: string) {
    && 0 < |s| <= DNS_LABEL_LIMIT
    && IsLower(s[0])
    && s[|s| - 1] != '-'
    && forall c :: c in s ==> IsLabelChar(c)
  }

  lemma ConcatChars(s: string, t: string)
    ensures (forall c :: c in s + t ==> IsLabelChar(c)) <==>
            (forall c :: c in s ==> IsLabelChar(c)) && (forall c :: c in t ==> IsLabelChar(c))
  {
    assert forall c :: c in s + t <==> c in s || c in t;
  }

  /** A worker's name is a DNS label exactly when the job's name starts like one, uses its
      characters, and leaves room for the suffix. */
  lemma WorkerNameIsLabel(name: string, i: nat)
    ensures IsDnsLabel(WorkerName(name, i)) <==>
            && name != [] && IsLower(name[0]) && (forall c :: c in name ==> IsLabelChar(c))
            && |name| + 8 + |Itoa(i)| <= DNS_LABEL_LIMIT
  {
    ItoaRoundTrip(i);
    var w, d := WorkerName(name, i), Itoa(i);
    ConcatChars(name + WORKER_INFIX, d);
    ConcatChars(name, WORKER_INFIX);
    assert w[|w| - 1] == d[|d| - 1];
    assert IsDigit(d[|d| - 1]);
    if name == [] {
      assert w[0] == '-';
    } else {
      assert w[0] == name[0];
    }
  }

  /** Checking the highest-numbered worker's name is enough for every worker and for the launcher. */
  lemma OneHostnameSuffices(name: string, last: nat)
    requires IsDnsLabel(WorkerName(name, last))
    ensures forall i :: 0 <= i <= last ==> IsDnsLabel(WorkerName(name, i))
    ensures IsDnsLabel(LauncherName(name))
  {
    WorkerNameIsLabel(name, last);
    forall i | 0 <= i <= last ensures IsDnsLabel(WorkerName(name, i)) {
      WorkerNameIsLabel(name, i);
      ItoaLengthMonotone(i, last);
    }
    ItoaLengthMonotone(0, last);
    var l := LauncherName(name);
    ConcatChars(name, LAUNCHER_SUFFIX);
    assert l[0] == name[0] && l[|l| - 1] == 'r';
  }

  /** The Service shares the job's own name, which the same check accepts as a DNS label
      if and only if the name does not end in a dash. */
  lemma ServiceNameIsLabelIff(name: string, last: nat)
    requires IsDnsLabel(WorkerName(name, last))
    ensures IsDnsLabel(name) <==> name[|name| - 1] != '-'
  {
    WorkerNameIsLabel(name, last);
    ItoaLengthMonotone(0, last);
  }

  /** The validator lets such a name through: `a-` passes, and is no DNS label. */
  lemma DashedNamePasses()
    ensures IsDnsLabel(WorkerName("a-", 0)) && !IsDnsLabel("a-")
  {
    WorkerNameIsLabel("a-", 0);
    assert Itoa(0) == [Digit(0)];
    assert "a-"[1] == '-';
  }
}
