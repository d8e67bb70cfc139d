/** The PIX settings page: the CPF/CNPJ display mask, built from first-match regular
    expression replacements, and the configuration modal's state. */
module PixKey {
  import opened Wrappers
  import opened Text

  // ---------------------------------------------------------------------------
  // First-match replacement `s.replace(/(\d{a})(\d...)/, '$1<sep>$2')`.

  /** `k` digits start at position `j`. */
  predicate RunAt(s: string, j: int, k: nat) {
    0 <= j && j + k <= |s| && AllDigits(s[j..j + k])
  }

  /** Where the regular expression engine, scanning from position `i`, first finds
      `k` consecutive digits. */
  function FirstRun(s: string, k: nat, i: nat): (r: Option<nat>)
    decreases |s| - i
    ensures r.Some? ==> i <= r.value && RunAt(s, r.value, k)
    ensures r.Some? ==> forall j :: i <= j < r.value ==> !RunAt(s, j, k)
    ensures r.None? ==> forall j :: i <= j ==> !RunAt(s, j, k)
  {
    if i + k > |s| then None
    else if RunAt(s, i, k) then Some(i)
    else FirstRun(s, k, i + 1)
  }

  /** `(\d{a})(\d)` (or `(\d{a})(\d{1,2})`) replaced by `$1<sep>$2`: at the first
      place where at least `a + 1` digits follow each other, `sep` goes in after the
      first `a` of them; with no such place the string is unchanged. The greedy
      second group does not matter, since it is written back unchanged. */
  function InsertAfterRun(s: string, a: nat, sep: char): string {
    match FirstRun(s, a + 1, 0)
    case None => s
    case Some(i) => s[..i + a] + [sep] + s[i + a..]
  }

  /** No `k` digits follow each other anywhere in `p`. */
  predicate ShortRuns(p: string, k: nat) {
    forall j :: 0 <= j <= |p| ==> !RunAt(p, j, k)
  }

  /** `p` is empty or ends with a character that is not a digit. */
  predicate EndsOpen(p: string) {
    p == [] || !IsDigit(p[|p| - 1])
  }

  lemma RunDigit(s: string, j: int, k: nat, t: int)
    requires RunAt(s, j, k) && j <= t < j + k
    ensures IsDigit(s[t])
  {
    assert s[j..j + k][t - j] == s[t];
  }

  /** Appending a digit group shorter than `k` and a non-digit keeps runs short. */
  lemma ShortRunsExtend(p: string, seg: string, c: char, k: nat)
    requires ShortRuns(p, k) && EndsOpen(p) && |seg| < k && !IsDigit(c)
    ensures ShortRuns(p + seg + [c], k) && EndsOpen(p + seg + [c])
  {
    var s := p + seg + [c];
    forall j | 0 <= j <= |s| ensures !RunAt(s, j, k) {
      if j + k <= |p| {
        assert !RunAt(p, j, k);
        assert s[j..j + k] == p[j..j + k];
      } else if j < |p| {
        NoRunOver(s, j, k, |p| - 1);
      } else if j + k <= |s| {
        NoRunOver(s, j, k, |s| - 1);
      }
    }
  }

  /** A window holding a non-digit is not a run. */
  lemma NoRunOver(s: string, j: int, k: nat, t: int)
    requires 0 <= j <= t < j + k && t < |s| && !IsDigit(s[t])
    ensures !RunAt(s, j, k)
  {
    if j + k <= |s| {
      assert s[j..j + k][t - j] == s[t];
    }
  }

  /** A longer run contains a shorter one. */
  lemma ShortRunsWiden(p: string, k: nat, k': nat)
    requires ShortRuns(p, k) && 1 <= k <= k'
    ensures ShortRuns(p, k')
  {
    forall j | 0 <= j <= |p| && j + k' <= |p| ensures !RunAt(p, j, k') {
      assert !RunAt(p, j, k);
      assert !AllDigits(p[j..j + k]);
      var t :| 0 <= t < k && !IsDigit(p[j..j + k][t]);
      assert p[j..j + k][t] == p[j..j + k'][t];
    }
  }

  /** The replacement on a string whose digits all sit in a tail `q` after a prefix
      with short runs: the separator goes in after `a` digits of `q`, if `q` has
      more than `a` digits. */
  lemma InsertAfterPrefix(p: string, q: string, a: nat, sep: char)
    requires ShortRuns(p, a + 1) && EndsOpen(p) && AllDigits(q)
    ensures |q| > a ==> InsertAfterRun(p + q, a, sep) == p + q[..a] + [sep] + q[a..]
    ensures |q| <= a ==> InsertAfterRun(p + q, a, sep) == p + q
  {
    PrefixHasNoRun(p, q, a + 1);
    if |q| > a {
      InsertInTail(p, q, a, a + 1, sep);
    } else {
      assert FirstRun(p + q, a + 1, 0).None?;
    }
  }

  /** The first run lies at the start of the tail: the separator goes in there. */
  lemma InsertInTail(p: string, q: string, a: nat, k: nat, sep: char)
    requires AllDigits(q) && |q| > a && k == a + 1
    requires forall j :: 0 <= j < |p| ==> !RunAt(p + q, j, k)
    ensures InsertAfterRun(p + q, a, sep) == p + q[..a] + [sep] + q[a..]
  {
    var s := p + q;
    assert s[|p|..|p| + a + 1] == q[..a + 1];
    FirstRunAt(s, a + 1, |p|);
    assert s[..|p| + a] == p + q[..a];
    assert s[|p| + a..] == q[a..];
  }

  /** No run of `k` digits starts inside a prefix with short runs that ends open. */
  lemma PrefixHasNoRun(p: string, q: string, k: nat)
    requires ShortRuns(p, k) && EndsOpen(p) && k >= 1
    ensures forall j :: 0 <= j < |p| ==> !RunAt(p + q, j, k)
  {
    var s := p + q;
    forall j | 0 <= j < |p| ensures !RunAt(s, j, k) {
      if j + k <= |p| {
        assert !RunAt(p, j, k);
        assert s[j..j + k] == p[j..j + k];
      } else {
        assert s[|p| - 1] == p[|p| - 1];
        NoRunOver(s, j, k, |p| - 1);
      }
    }
  }

  /** A run at `t` with none before it is the one the engine finds. */
  lemma FirstRunAt(s: string, k: nat, t: nat)
    requires RunAt(s, t, k)
    requires forall j :: 0 <= j < t ==> !RunAt(s, j, k)
    ensures FirstRun(s, k, 0) == Some(t)
  {
  }

  // ---------------------------------------------------------------------------
  // The two masks.

  /** `numbers.slice(0, n)`. */
  function Clip(d: string, n: nat): (r: string)
    ensures |r| <= n && |r| <= |d| && r == d[..|r|]
    ensures |d| >= n ==> |r| == n
  {
    if |d| <= n then d else d[..n]
  }

  /** The CPF branch of `formatPixKey`. */
  function FormatCpf(value: string): string {
    var numbers := Clip(Digits(value), 11);
    InsertAfterRun(InsertAfterRun(InsertAfterRun(numbers, 3, '.'), 3, '.'), 3, '-')
  }

  /** The CNPJ branch of `formatPixKey`. */
  function FormatCnpj(value: string): string {
    var numbers := Clip(Digits(value), 14);
    InsertAfterRun(InsertAfterRun(InsertAfterRun(InsertAfterRun(numbers, 2, '.'), 3, '.'), 3, '/'), 4, '-')
  }

  /** The CPF layout `000.000.000-00` filled in as far as the digits go. */
  function CpfLayout(d: string): (r: string)
    requires |d| <= 11
  {
    if |d| <= 3 then d
    else if |d| <= 6 then d[..3] + ['.'] + d[3..]
    else if |d| <= 9 then d[..3] + ['.'] + d[3..6] + ['.'] + d[6..]
    else d[..3] + ['.'] + d[3..6] + ['.'] + d[6..9] + ['-'] + d[9..]
  }

  /** The CNPJ layout `00.000.000/0000-00` filled in as far as the digits go. */
  function CnpjLayout(d: string): (r: string)
    requires |d| <= 14
  {
    if |d| <= 2 then d
    else if |d| <= 5 then d[..2] + ['.'] + d[2..]
    else if |d| <= 8 then d[..2] + ['.'] + d[2..5] + ['.'] + d[5..]
    else if |d| <= 12 then d[..2] + ['.'] + d[2..5] + ['.'] + d[5..8] + ['/'] + d[8..]
    else d[..2] + ['.'] + d[2..5] + ['.'] + d[5..8] + ['/'] + d[8..12] + ['-'] + d[12..]
  }

  /** The chain of replacements lays the first eleven digits out as a CPF. */
  lemma FormatCpfLayout(value: string)
    ensures FormatCpf(value) == CpfLayout(Clip(Digits(value), 11))
  {
    var d := Clip(Digits(value), 11);
    assert AllDigits(d);
    ShortRunsNone(4);
    assert [] + d == d;
    InsertAfterPrefix([], d, 3, '.');
    if |d| <= 3 {
      InsertAfterPrefix([], d, 3, '-');
    } else {
      var p1, q1 := d[..3] + ['.'], d[3..];
      ShortRunsExtend([], d[..3], '.', 4);
      assert [] + d[..3] + ['.'] == p1;
      assert d[..3] + [] + ['.'] + d[3..] == p1 + q1;
      assert InsertAfterRun(d, 3, '.') == p1 + q1;
      CpfAfterFirstDot(d, p1, q1);
    }
  }

  /** The second dot and the dash, once the first dot is in. */
  lemma CpfAfterFirstDot(d: string, p1: string, q1: string)
    requires AllDigits(d) && 3 < |d| <= 11
    requires p1 == d[..3] + ['.'] && q1 == d[3..]
    requires ShortRuns(p1, 4) && EndsOpen(p1)
    ensures InsertAfterRun(InsertAfterRun(p1 + q1, 3, '.'), 3, '-') == CpfLayout(d)
  {
    InsertAfterPrefix(p1, q1, 3, '.');
    if |d| <= 6 {
      InsertAfterPrefix(p1, q1, 3, '-');
    } else {
      var p2, q2 := p1 + q1[..3] + ['.'], q1[3..];
      ShortRunsExtend(p1, q1[..3], '.', 4);
      assert p1 + q1[..3] + ['.'] + q1[3..] == p2 + q2;
      assert q1[..3] == d[3..6] && q2 == d[6..];
      InsertAfterPrefix(p2, q2, 3, '-');
      if |d| > 9 {
        assert q2[..3] == d[6..9] && q2[3..] == d[9..];
      }
    }
  }

  /** The chain of replacements lays the first fourteen digits out as a CNPJ. */
  lemma FormatCnpjLayout(value: string)
    ensures FormatCnpj(value) == CnpjLayout(Clip(Digits(value), 14))
  {
    var d := Clip(Digits(value), 14);
    var n := |d|;
    assert AllDigits(d);
    ShortRunsNone(3);
    assert [] + d == d;
    InsertAfterPrefix([], d, 2, '.');
    if n <= 2 {
      ShortRunsNone(4);
      ShortRunsNone(5);
      InsertAfterPrefix([], d, 3, '.');
      InsertAfterPrefix([], d, 3, '/');
      InsertAfterPrefix([], d, 4, '-');
    } else {
      var p1, q1 := d[..2] + ['.'], d[2..];
      ShortRunsExtend([], d[..2], '.', 3);
      assert [] + d[..2] + ['.'] == p1;
      assert d[..2] + [] + ['.'] + d[2..] == p1 + q1;
      assert InsertAfterRun(d, 2, '.') == p1 + q1;
      CnpjAfterFirstDot(d, p1, q1);
    }
  }

  /** The last three replacements, once the first dot is in. */
  lemma CnpjAfterFirstDot(d: string, p1: string, q1: string)
    requires AllDigits(d) && 2 < |d| <= 14
    requires p1 == d[..2] + ['.'] && q1 == d[2..]
    requires ShortRuns(p1, 3) && EndsOpen(p1)
    ensures InsertAfterRun(InsertAfterRun(InsertAfterRun(p1 + q1, 3, '.'), 3, '/'), 4, '-') == CnpjLayout(d)
  {
    var n := |d|;
    ShortRunsWiden(p1, 3, 4);
    ShortRunsWiden(p1, 3, 5);
    InsertAfterPrefix(p1, q1, 3, '.');
    if n <= 5 {
      InsertAfterPrefix(p1, q1, 3, '/');
      InsertAfterPrefix(p1, q1, 4, '-');
    } else {
      var p2, q2 := p1 + q1[..3] + ['.'], q1[3..];
      ShortRunsExtend(p1, q1[..3], '.', 4);
      ShortRunsWiden(p2, 4, 5);
      assert p1 + q1[..3] + ['.'] + q1[3..] == p2 + q2;
      assert q1[..3] == d[2..5] && q2 == d[5..];
      CnpjAfterSecondDot(d, p2, q2);
    }
  }

  /** The slash and the dash, once both dots are in. */
  lemma CnpjAfterSecondDot(d: string, p2: string, q2: string)
    requires AllDigits(d) && 5 < |d| <= 14
    requires p2 == d[..2] + ['.'] + d[2..5] + ['.'] && q2 == d[5..]
    requires ShortRuns(p2, 4) && ShortRuns(p2, 5) && EndsOpen(p2)
    ensures InsertAfterRun(InsertAfterRun(p2 + q2, 3, '/'), 4, '-') == CnpjLayout(d)
  {
    var n := |d|;
    InsertAfterPrefix(p2, q2, 3, '/');
    if n <= 8 {
      InsertAfterPrefix(p2, q2, 4, '-');
    } else {
      var p3, q3 := p2 + q2[..3] + ['/'], q2[3..];
      ShortRunsExtend(p2, q2[..3], '/', 4);
      ShortRunsWiden(p3, 4, 5);
      assert p2 + q2[..3] + ['/'] + q2[3..] == p3 + q3;
      assert q2[..3] == d[5..8] && q3 == d[8..];
      InsertAfterPrefix(p3, q3, 4, '-');
      if n > 12 {
        assert q3[..4] == d[8..12] && q3[4..] == d[12..];
      }
    }
  }

  /** The empty prefix has no runs. */
  lemma ShortRunsNone(k: nat)
    requires k >= 1
    ensures ShortRuns([], k) && EndsOpen([])
  {
  }
  // ---------------------------------------------------------------------------
  // Properties of the masks.

  /** The digits of a filled-in CPF layout are the digits laid out. */
  lemma CpfLayoutDigits(d: string)
    requires AllDigits(d) && |d| <= 11
    ensures Digits(CpfLayout(d)) == d
  {
    if |d| <= 3 {
      DigitsOfDigits(d);
    } else if |d| <= 6 {
      var a := d[..3];
      DigitsOfDigits(a);
      DigitsOfDigits(d[3..]);
      DigitsAround(a, '.', d[3..]);
      assert a + d[3..] == d;
    } else {
      CpfLongLayoutDigits(d);
    }
  }

  /** The digits of a CPF layout filled past its second dot. */
  lemma CpfLongLayoutDigits(d: string)
    requires AllDigits(d) && 6 < |d| <= 11
    ensures Digits(CpfLayout(d)) == d
  {
    var a, b := d[..3], d[3..6];
    var x := a + ['.'] + b;
    DigitsOfDigits(a);
    DigitsOfDigits(b);
    DigitsAround(a, '.', b);
    assert Digits(x) == d[..6];
    if |d| <= 9 {
      DigitsOfDigits(d[6..]);
      DigitsAround(x, '.', d[6..]);
      assert CpfLayout(d) == x + ['.'] + d[6..];
      assert d[..6] + d[6..] == d;
    } else {
      var c := d[6..9];
      var y := x + ['.'] + c;
      DigitsOfDigits(c);
      DigitsAround(x, '.', c);
      assert Digits(y) == d[..9];
      DigitsOfDigits(d[9..]);
      DigitsAround(y, '-', d[9..]);
      assert CpfLayout(d) == y + ['-'] + d[9..];
      assert d[..9] + d[9..] == d;
    }
  }

  /** The digits of a filled-in CNPJ layout are the digits laid out. */
  lemma CnpjLayoutDigits(d: string)
    requires AllDigits(d) && |d| <= 14
    ensures Digits(CnpjLayout(d)) == d
  {
    if |d| <= 2 {
      DigitsOfDigits(d);
    } else if |d| <= 5 {
      var a := d[..2];
      DigitsOfDigits(a);
      DigitsOfDigits(d[2..]);
      DigitsAround(a, '.', d[2..]);
      assert a + d[2..] == d;
    } else if |d| <= 8 {
      var a, b := d[..2], d[2..5];
      var x := a + ['.'] + b;
      DigitsOfDigits(a);
      DigitsOfDigits(b);
      DigitsAround(a, '.', b);
      DigitsOfDigits(d[5..]);
      DigitsAround(x, '.', d[5..]);
      assert CnpjLayout(d) == x + ['.'] + d[5..];
      assert a + b + d[5..] == d;
    } else {
      CnpjLongLayoutDigits(d);
    }
  }

  /** The digits of a CNPJ layout filled past its slash. */
  lemma CnpjLongLayoutDigits(d: string)
    requires AllDigits(d) && 8 < |d| <= 14
    ensures Digits(CnpjLayout(d)) == d
  {
    var a, b, c := d[..2], d[2..5], d[5..8];
    var x := a + ['.'] + b + ['.'] + c;
    DigitsOfDigits(a);
    DigitsOfDigits(b);
    DigitsOfDigits(c);
    DigitsAround(a, '.', b);
    DigitsAround(a + ['.'] + b, '.', c);
    assert Digits(x) == d[..8];
    if |d| <= 12 {
      DigitsOfDigits(d[8..]);
      DigitsAround(x, '/', d[8..]);
      assert CnpjLayout(d) == x + ['/'] + d[8..];
      assert d[..8] + d[8..] == d;
    } else {
      CnpjFullLayoutDigits(d, x);
    }
  }

  /** The digits of a CNPJ layout filled past its dash. */
  lemma CnpjFullLayoutDigits(d: string, x: string)
    requires AllDigits(d) && 12 < |d| <= 14
    requires x == d[..2] + ['.'] + d[2..5] + ['.'] + d[5..8] && Digits(x) == d[..8]
    ensures Digits(CnpjLayout(d)) == d
  {
    var e := d[8..12];
    var y := x + ['/'] + e;
    DigitsOfDigits(e);
    DigitsAround(x, '/', e);
    assert Digits(y) == d[..12];
    DigitsOfDigits(d[12..]);
    DigitsAround(y, '-', d[12..]);
    assert CnpjLayout(d) == y + ['-'] + d[12..];
    assert d[..12] + d[12..] == d;
  }

  /** The digits of the CPF mask are the first eleven digits of the input. */
  lemma FormatCpfDigits(value: string)
    ensures Digits(FormatCpf(value)) == Clip(Digits(value), 11)
  {
    FormatCpfLayout(value);
    CpfLayoutDigits(Clip(Digits(value), 11));
  }

  /** The digits of the CNPJ mask are the first fourteen digits of the input. */
  lemma FormatCnpjDigits(value: string)
    ensures Digits(FormatCnpj(value)) == Clip(Digits(value), 14)
  {
    FormatCnpjLayout(value);
    CnpjLayoutDigits(Clip(Digits(value), 14));
  }

  /** `DDD.DDD.DDD-DD`. */
  predicate CpfPattern(r: string) {
    && |r| == 14 && r[3] == '.' && r[7] == '.' && r[11] == '-'
    && forall i :: 0 <= i < 14 && i != 3 && i != 7 && i != 11 ==> IsDigit(r[i])
  }

  /** `DD.DDD.DDD/DDDD-DD`. */
  predicate CnpjPattern(r: string) {
    && |r| == 18 && r[2] == '.' && r[6] == '.' && r[10] == '/' && r[15] == '-'
    && forall i :: 0 <= i < 18 && i != 2 && i != 6 && i != 10 && i != 15 ==> IsDigit(r[i])
  }

  /** Eleven or more digits give a complete CPF. */
  lemma FormatCpfComplete(value: string)
    requires |Digits(value)| >= 11
    ensures CpfPattern(FormatCpf(value))
  {
    FormatCpfLayout(value);
    CpfLayoutPattern(Clip(Digits(value), 11));
  }

  /** Eleven digits fill the CPF layout completely. */
  lemma CpfLayoutPattern(d: string)
    requires AllDigits(d) && |d| == 11
    ensures CpfPattern(CpfLayout(d))
  {
    var r := CpfLayout(d);
    assert r == d[..3] + ['.'] + d[3..6] + ['.'] + d[6..9] + ['-'] + d[9..];
    forall i | 0 <= i < 14 && i != 3 && i != 7 && i != 11 ensures IsDigit(r[i]) {
      if i < 3 { assert r[i] == d[i]; }
      else if i < 7 { assert r[i] == d[i - 1]; }
      else if i < 11 { assert r[i] == d[i - 2]; }
      else { assert r[i] == d[i - 3]; }
    }
  }

  /** Fourteen or more digits give a complete CNPJ. */
  lemma FormatCnpjComplete(value: string)
    requires |Digits(value)| >= 14
    ensures CnpjPattern(FormatCnpj(value))
  {
    FormatCnpjLayout(value);
    CnpjLayoutPattern(Clip(Digits(value), 14));
  }

  /** Fourteen digits fill the CNPJ layout completely. */
  lemma CnpjLayoutPattern(d: string)
    requires AllDigits(d) && |d| == 14
    ensures CnpjPattern(CnpjLayout(d))
  {
    var x := d[..2] + ['.'] + d[2..5] + ['.'] + d[5..8];
    var r := CnpjLayout(d);
    assert r == x + ['/'] + d[8..12] + ['-'] + d[12..];
    assert |x| == 10;
    forall i | 0 <= i < 10 && i != 2 && i != 6 ensures IsDigit(r[i]) {
      assert r[i] == x[i];
      if i < 2 { assert x[i] == d[i]; }
      else if i < 6 { assert x[i] == d[i - 1]; }
      else { assert x[i] == d[i - 2]; }
    }
    forall i | 10 < i < 18 && i != 15 ensures IsDigit(r[i]) {
      if i < 15 { assert r[i] == d[i - 3]; }
      else { assert r[i] == d[i - 4]; }
    }
    assert r[2] == x[2] && r[6] == x[6];
  }

  /** Masking a masked CPF changes nothing. */
  lemma FormatCpfIdempotent(value: string)
    ensures FormatCpf(FormatCpf(value)) == FormatCpf(value)
  {
    FormatCpfDigits(value);
    FormatCpfLayout(value);
    FormatCpfLayout(FormatCpf(value));
  }

  /** Masking a masked CNPJ changes nothing. */
  lemma FormatCnpjIdempotent(value: string)
    ensures FormatCnpj(FormatCnpj(value)) == FormatCnpj(value)
  {
    FormatCnpjDigits(value);
    FormatCnpjLayout(value);
    FormatCnpjLayout(FormatCnpj(value));
  }

  // ---------------------------------------------------------------------------
  // The configuration modal.

  datatype PixKeyType = Cpf | Cnpj | Email | Phone | RandomKey

  /** `formatPixKey`: CPF and CNPJ keys are masked, the other kinds pass through. */
  function FormatPixKey(value: string, t: PixKeyType): (r: string)
    ensures t != Cpf && t != Cnpj ==> r == value
    ensures t == Cpf ==> Digits(r) == Clip(Digits(value), 11)
    ensures t == Cnpj ==> Digits(r) == Clip(Digits(value), 14)
  {
    match t
    case Cpf => FormatCpfDigits(value); FormatCpf(value)
    case Cnpj => FormatCnpjDigits(value); FormatCnpj(value)
    case _ => value
  }

  /** The mount effect's reading of the stored flag: an absent or empty entry
      keeps the current value, `"true"` and `"false"` are parsed, any other text
      fails to parse and is ignored. */
  function ConfiguredAfterMount(stored: Option<string>, current: bool): (configured: bool)
    ensures stored.None? || stored == Some("") ==> configured == current
    ensures stored == Some("true") ==> configured
    ensures stored == Some("false") ==> !configured
    ensures stored.Some? && stored.value !in {"", "true", "false"} ==> configured == current
  {
    match stored
    case None => current
    case Some(text) =>
      if text == "true" then true
      else if text == "false" then false
      else current
  }

  /** The page's state; `storedConfigured` is the `isPaymentConfigured` entry of
      local storage. */
  class PixSettings {
    var isPixModalOpen: bool
    var pixKey: string
    var pixKeyType: PixKeyType
    var isPaymentConfigured: bool
    var storedConfigured: Option<string>

    constructor(stored: Option<string>)
      ensures !isPixModalOpen && pixKey == [] && pixKeyType == Cpf && !isPaymentConfigured
      ensures storedConfigured == stored
    {
      isPixModalOpen := false;
      pixKey := [];
      pixKeyType := Cpf;
      isPaymentConfigured := false;
      storedConfigured := stored;
    }

    /** The mount effect. */
    method CheckStoredConfiguration()
      modifies this
      ensures isPaymentConfigured == ConfiguredAfterMount(storedConfigured, old(isPaymentConfigured))
      ensures isPixModalOpen == old(isPixModalOpen) && pixKey == old(pixKey) && pixKeyType == old(pixKeyType)
      ensures storedConfigured == old(storedConfigured)
    {
      isPaymentConfigured := ConfiguredAfterMount(storedConfigured, isPaymentConfigured);
    }

    /** The save button is disabled exactly when the trimmed key is empty. */
    function SaveDisabled(): (disabled: bool)
      reads this
      ensures disabled <==> forall i :: 0 <= i < |pixKey| ==> IsWhitespace(pixKey[i])
    {
      BlankIffAllWhitespace(pixKey);
      IsBlank(pixKey)
    }

    method HandlePixConfiguration()
      modifies this
      ensures isPixModalOpen
      ensures pixKey == old(pixKey) && pixKeyType == old(pixKeyType)
      ensures isPaymentConfigured == old(isPaymentConfigured) && storedConfigured == old(storedConfigured)
    {
      isPixModalOpen := true;
    }

    /** `handleSavePixConfiguration`: with a non-blank key, mark payment as
        configured (in state and in storage), close the modal and reset the key and
        its type; with a blank key nothing happens. */
    method HandleSavePixConfiguration()
      modifies this
      ensures old(IsBlank(pixKey)) ==>
        && isPixModalOpen == old(isPixModalOpen) && pixKey == old(pixKey) && pixKeyType == old(pixKeyType)
        && isPaymentConfigured == old(isPaymentConfigured) && storedConfigured == old(storedConfigured)
      ensures !old(IsBlank(pixKey)) ==>
        && isPaymentConfigured && storedConfigured == Some("true")
        && !isPixModalOpen && pixKey == [] && pixKeyType == Cpf
    {
      if !IsBlank(pixKey) {
        isPaymentConfigured := true;
        storedConfigured := Some("true");
        isPixModalOpen := false;
        pixKey := [];
        pixKeyType := Cpf;
      }
    }

    /** `handleClosePixModal`. */
    method HandleClosePixModal()
      modifies this
      ensures !isPixModalOpen && pixKey == [] && pixKeyType == Cpf
      ensures isPaymentConfigured == old(isPaymentConfigured) && storedConfigured == old(storedConfigured)
    {
      isPixModalOpen := false;
      pixKey := [];
      pixKeyType := Cpf;
    }

    /** `handlePixKeyChange`: store the typed key masked for the current type. */
    method HandlePixKeyChange(typed: string)
      modifies this
      ensures pixKey == FormatPixKey(typed, pixKeyType)
      ensures isPixModalOpen == old(isPixModalOpen) && pixKeyType == old(pixKeyType)
      ensures isPaymentConfigured == old(isPaymentConfigured) && storedConfigured == old(storedConfigured)
    {
      pixKey := FormatPixKey(typed, pixKeyType);
    }

    /** Choosing another key type clears the key. */
    method ChangeKeyType(t: PixKeyType)
      modifies this
      ensures pixKeyType == t && pixKey == []
      ensures isPixModalOpen == old(isPixModalOpen)
      ensures isPaymentConfigured == old(isPaymentConfigured) && storedConfigured == old(storedConfigured)
    {
      pixKeyType := t;
      pixKey := [];
    }
  }
}
