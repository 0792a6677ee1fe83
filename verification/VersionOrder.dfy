/** The order of Skill versions (skill_version_key) and the precedence rules it stands for.

The key is computed from the version text. Its order is a total preorder on every version
the contracts admit, and on versions that Semantic Versioning 2.0.0 admits it is exactly
the precedence of item 11 of that document.
*/
module VersionOrder {
  import opened Wrappers

  // ---------------------------------------------------------------- lexicographic order

  /** Comparison of Python tuples and strings: the first difference decides, a prefix is less. */
  predicate LexLt<T(==)>(less: (T, T) -> bool, a: seq<T>, b: seq<T>) {
    if b == [] then false
    else if a == [] then true
    else less(a[0], b[0]) || (a[0] == b[0] && LexLt(less, a[1..], b[1..]))
  }

  ghost predicate Irreflexive<T(!new)>(less: (T, T) -> bool) {
    forall x :: !less(x, x)
  }

  ghost predicate Transitive<T(!new)>(less: (T, T) -> bool) {
    forall x, y, z :: less(x, y) && less(y, z) ==> less(x, z)
  }

  ghost predicate Total<T(!new)>(less: (T, T) -> bool) {
    forall x, y :: less(x, y) || x == y || less(y, x)
  }

  ghost predicate StrictTotal<T(!new)>(less: (T, T) -> bool) {
    Irreflexive(less) && Transitive(less) && Total(less)
  }

  lemma {:induction false} LexIrreflexive<T(!new)>(less: (T, T) -> bool, a: seq<T>)
    requires StrictTotal(less)
    ensures !LexLt(less, a, a)
  {
    if a != [] {
      LexIrreflexive(less, a[1..]);
    }
  }

  lemma {:induction false} LexTransitive<T(!new)>(less: (T, T) -> bool, a: seq<T>, b: seq<T>, c: seq<T>)
    requires StrictTotal(less) && LexLt(less, a, b) && LexLt(less, b, c)
    ensures LexLt(less, a, c)
  {
    if a != [] && a[0] == b[0] && b[0] == c[0] {
      LexTransitive(less, a[1..], b[1..], c[1..]);
    }
  }

  lemma {:induction false} LexTotal<T(!new)>(less: (T, T) -> bool, a: seq<T>, b: seq<T>)
    requires StrictTotal(less)
    ensures LexLt(less, a, b) || a == b || LexLt(less, b, a)
  {
    if a != [] && b != [] && a[0] == b[0] {
      LexTotal(less, a[1..], b[1..]);
      assert a == [a[0]] + a[1..] && b == [b[0]] + b[1..];
    }
  }

  /** `k` is where `a` and `b` part, with `a` on the lower side. */
  ghost predicate PartsAt<T>(less: (T, T) -> bool, a: seq<T>, b: seq<T>, k: nat) {
    && k <= |a| && k < |b| && a[..k] == b[..k]
    && (k < |a| ==> less(a[k], b[k]))
  }

  /** The lexicographic order said without recursion. */
  lemma {:induction false} LexIsFirstDifference<T(!new)>(less: (T, T) -> bool, a: seq<T>, b: seq<T>)
    ensures LexLt(less, a, b) <==> exists k :: PartsAt(less, a, b, k)
  {
    if a == [] && b != [] {
      assert PartsAt(less, a, b, 0);
    } else if b != [] {
      if less(a[0], b[0]) {
        assert PartsAt(less, a, b, 0);
      }
      LexIsFirstDifference(less, a[1..], b[1..]);
      if k :| PartsAt(less, a[1..], b[1..], k) && a[0] == b[0] {
        PartsEarlier(less, a, b, k);
      }
      if k :| PartsAt(less, a, b, k) && k > 0 {
        PartsLater(less, a, b, k);
      }
    }
  }

  lemma PartsEarlier<T>(less: (T, T) -> bool, a: seq<T>, b: seq<T>, k: nat)
    requires a != [] && b != [] && a[0] == b[0] && PartsAt(less, a[1..], b[1..], k)
    ensures PartsAt(less, a, b, k + 1)
  {
    assert a[..k + 1] == [a[0]] + a[1..][..k] && b[..k + 1] == [b[0]] + b[1..][..k];
  }

  lemma PartsLater<T>(less: (T, T) -> bool, a: seq<T>, b: seq<T>, k: nat)
    requires k > 0 && PartsAt(less, a, b, k)
    ensures a[0] == b[0] && PartsAt(less, a[1..], b[1..], k - 1)
  {
    assert a[0] == a[..k][0] && b[0] == b[..k][0];
    assert a[1..][..k - 1] == a[..k][1..] && b[1..][..k - 1] == b[..k][1..];
  }

  // ---------------------------------------------------------------- text helpers

  predicate IsDigit(c: char) {
    '0' <= c <= '9'
  }

  predicate AllDigits(s: string) {
    forall i :: 0 <= i < |s| ==> IsDigit(s[i])
  }

  /** The number a digit string denotes. */
  function ParseNat(s: string): nat
    requires AllDigits(s)
  {
    if s == "" then 0
    else 10 * ParseNat(s[..|s| - 1]) + (s[|s| - 1] as int - '0' as int)
  }

  function Decimal(n: nat): (s: string)
    ensures s != "" && AllDigits(s)
  {
    if n < 10 then [('0' as int + n) as char]
    else Decimal(n / 10) + [('0' as int + n % 10) as char]
  }

  /** A digit string without a superfluous leading zero. */
  predicate Numeral(s: string) {
    s != "" && AllDigits(s) && (|s| == 1 || s[0] != '0')
  }

  lemma {:induction false} ParseDecimal(n: nat)
    ensures ParseNat(Decimal(n)) == n && Numeral(Decimal(n))
    ensures n > 0 ==> Decimal(n)[0] != '0'
  {
    if n >= 10 {
      ParseDecimal(n / 10);
      assert Decimal(n)[..|Decimal(n)| - 1] == Decimal(n / 10);
    }
  }

  lemma {:induction false} DecimalParse(s: string)
    requires Numeral(s)
    ensures Decimal(ParseNat(s)) == s
    ensures s != "0" ==> ParseNat(s) > 0
  {
    if |s| > 1 {
      var front := s[..|s| - 1];
      DecimalParse(front);
      assert front[0] == s[0];
      assert s == front + [s[|s| - 1]];
    }
  }

  function Split(s: string, at: char): (parts: seq<string>)
    ensures parts != []
  {
    if s == "" then [""]
    else if s[0] == at then [""] + Split(s[1..], at)
    else
      var rest := Split(s[1..], at);
      [[s[0]] + rest[0]] + rest[1..]
  }

  function Join(parts: seq<string>, at: char): string {
    if parts == [] then ""
    else if |parts| == 1 then parts[0]
    else parts[0] + [at] + Join(parts[1..], at)
  }

  lemma {:induction false} SplitFirst(a: string, at: char, b: string)
    requires at !in a
    ensures Split(a + [at] + b, at) == [a] + Split(b, at)
  {
    if a == "" {
      assert a + [at] + b == [at] + b;
    } else {
      SplitFirst(a[1..], at, b);
      assert (a + [at] + b)[1..] == a[1..] + [at] + b;
      assert [a[0]] + a[1..] == a;
    }
  }

  lemma {:induction false} SplitNone(a: string, at: char)
    requires at !in a
    ensures Split(a, at) == [a]
  {
    if a != "" {
      SplitNone(a[1..], at);
      assert [a[0]] + a[1..] == a;
    }
  }

  lemma {:induction false} SplitJoin(parts: seq<string>, at: char)
    requires parts != [] && forall i :: 0 <= i < |parts| ==> at !in parts[i]
    ensures Split(Join(parts, at), at) == parts
  {
    if |parts| == 1 {
      SplitNone(parts[0], at);
    } else {
      SplitFirst(parts[0], at, Join(parts[1..], at));
      SplitJoin(parts[1..], at);
      assert parts == [parts[0]] + parts[1..];
    }
  }

  lemma {:induction false} JoinSplit(s: string, at: char)
    ensures Join(Split(s, at), at) == s
  {
    if s != "" {
      var rest := Split(s[1..], at);
      JoinSplit(s[1..], at);
      assert s == [s[0]] + s[1..];
      if s[0] == at {
        assert ([""] + rest)[1..] == rest;
      } else {
        JoinPrepend(s[0], rest, at);
      }
    }
  }

  lemma JoinPrepend(c: char, parts: seq<string>, at: char)
    requires parts != []
    ensures Join([[c] + parts[0]] + parts[1..], at) == [c] + Join(parts, at)
  {
    if |parts| > 1 {
      assert ([[c] + parts[0]] + parts[1..])[1..] == parts[1..];
    }
  }

  /** The text before and after the first separator, as str.partition gives them. */
  function Before(s: string, at: char): string {
    if s == "" || s[0] == at then "" else [s[0]] + Before(s[1..], at)
  }

  function After(s: string, at: char): string {
    if s == "" then "" else if s[0] == at then s[1..] else After(s[1..], at)
  }

  lemma {:induction false} PartitionAt(a: string, at: char, b: string)
    requires at !in a
    ensures Before(a + [at] + b, at) == a && After(a + [at] + b, at) == b
  {
    if a == "" {
      assert a + [at] + b == [at] + b;
    } else {
      PartitionAt(a[1..], at, b);
      assert (a + [at] + b)[1..] == a[1..] + [at] + b;
      assert [a[0]] + a[1..] == a;
    }
  }

  lemma {:induction false} PartitionNone(a: string, at: char)
    requires at !in a
    ensures Before(a, at) == a && After(a, at) == ""
  {
    if a != "" {
      PartitionNone(a[1..], at);
      assert [a[0]] + a[1..] == a;
    }
  }

  // ---------------------------------------------------------------- the version key

  datatype Ident = Numeric(number: nat) | Text(text: string)

  datatype VersionKey = VersionKey(core: seq<nat>, release: bool, idents: seq<Ident>)

  function IdentOf(part: string): Ident {
    if part != "" && AllDigits(part) then Numeric(ParseNat(part)) else Text(part)
  }

  function IdentsOf(parts: seq<string>): seq<Ident> {
    if parts == [] then []
    else if parts[0] == "" then IdentsOf(parts[1..])
    else [IdentOf(parts[0])] + IdentsOf(parts[1..])
  }

  predicate CoreParses(parts: seq<string>) {
    forall i :: 0 <= i < |parts| ==> parts[i] != "" && AllDigits(parts[i])
  }

  function Numbers(parts: seq<string>): seq<nat>
    requires CoreParses(parts)
  {
    seq(|parts|, i requires 0 <= i < |parts| => ParseNat(parts[i]))
  }

  /** None where converting a core part to a number fails. */
  function Key(version: string): Option<VersionKey> {
    var parts := Split(Before(version, '-'), '.');
    var prerelease := After(version, '-');
    if CoreParses(parts)
    then Some(VersionKey(
      Numbers(parts),
      prerelease == "",
      IdentsOf(Split(prerelease, '.'))))
    else None
  }

  predicate CharLt(a: char, b: char) {
    a < b
  }

  predicate NatLt(a: nat, b: nat) {
    a < b
  }

  predicate IdentLt(a: Ident, b: Ident) {
    match (a, b)
    case (Numeric(m), Numeric(n)) => m < n
    case (Numeric(_), Text(_)) => true
    case (Text(_), Numeric(_)) => false
    case (Text(s), Text(t)) => LexLt(CharLt, s, t)
  }

  predicate KeyLt(a: VersionKey, b: VersionKey) {
    || LexLt(NatLt, a.core, b.core)
    || (a.core == b.core && !a.release && b.release)
    || (a.core == b.core && a.release == b.release && LexLt(IdentLt, a.idents, b.idents))
  }

  lemma IdentOrder()
    ensures StrictTotal(IdentLt)
  {
    hide LexLt;
    assert StrictTotal(CharLt);
    forall x: Ident ensures !IdentLt(x, x) {
      if x.Text? { LexIrreflexive(CharLt, x.text); }
    }
    forall x: Ident, y: Ident, z: Ident | IdentLt(x, y) && IdentLt(y, z) ensures IdentLt(x, z) {
      if x.Text? && y.Text? && z.Text? { LexTransitive(CharLt, x.text, y.text, z.text); }
    }
    forall x: Ident, y: Ident ensures IdentLt(x, y) || x == y || IdentLt(y, x) {
      if x.Text? && y.Text? { LexTotal(CharLt, x.text, y.text); }
    }
  }

  /** Keys are linearly ordered, so versions are totally preordered by their keys. */
  lemma KeyOrder(a: VersionKey, b: VersionKey, c: VersionKey)
    ensures !KeyLt(a, a)
    ensures KeyLt(a, b) && KeyLt(b, c) ==> KeyLt(a, c)
    ensures KeyLt(a, b) || a == b || KeyLt(b, a)
  {
    hide LexLt, StrictTotal;
    assert StrictTotal(NatLt) by { NatOrder(); }
    IdentOrder();
    LexIrreflexive(NatLt, a.core);
    LexIrreflexive(IdentLt, a.idents);
    LexTotal(NatLt, a.core, b.core);
    LexTotal(IdentLt, a.idents, b.idents);
    if LexLt(NatLt, a.core, b.core) && LexLt(NatLt, b.core, c.core) {
      LexTransitive(NatLt, a.core, b.core, c.core);
    }
    if LexLt(IdentLt, a.idents, b.idents) && LexLt(IdentLt, b.idents, c.idents) {
      LexTransitive(IdentLt, a.idents, b.idents, c.idents);
    }
  }

  lemma NatOrder()
    ensures StrictTotal(NatLt)
  {
  }

  // ---------------------------------------------------------------- versions the contracts admit

  predicate PrereleaseChar(c: char) {
    IsDigit(c) || 'A' <= c <= 'Z' || 'a' <= c <= 'z' || c == '.' || c == '-'
  }

  predicate ThreeNumerals(parts: seq<string>) {
    |parts| == 3 && forall i :: 0 <= i < 3 ==> Numeral(parts[i])
  }

  /** Three numerals and, after a hyphen, any run of letters, digits, dots and hyphens. */
  predicate WellFormed(s: string) {
    var parts, tail := Split(Before(s, '-'), '.'), After(s, '-');
    && ThreeNumerals(parts)
    && (forall i :: 0 <= i < |tail| ==> PrereleaseChar(tail[i]))
    && ('-' in s ==> tail != "")
  }

  /** Admitted versions have a key, so the fallback is only there to make the order total. */
  function KeyOf(v: string): VersionKey {
    if Key(v).Some? then Key(v).value else VersionKey([], false, [])
  }

  lemma WellFormedHasKey(v: string)
    requires WellFormed(v)
    ensures Key(v).Some? && |KeyOf(v).core| == 3
  {
  }

  predicate Lt(v: string, w: string) {
    KeyLt(KeyOf(v), KeyOf(w))
  }

  predicate Le(v: string, w: string) {
    !Lt(w, v)
  }

  /** `Le` is a total preorder; equivalent versions are those with equal keys. */
  lemma VersionPreorder(u: string, v: string, w: string)
    ensures Le(v, v)
    ensures Le(u, v) && Le(v, w) ==> Le(u, w)
    ensures Le(v, w) || Le(w, v)
    ensures Le(v, w) && Le(w, v) <==> KeyOf(v) == KeyOf(w)
    ensures Lt(u, v) && Le(v, w) ==> Lt(u, w)
    ensures Le(u, v) && Lt(v, w) ==> Lt(u, w)
  {
    hide KeyLt, Key;
    KeyOrder(KeyOf(u), KeyOf(v), KeyOf(w));
    KeyOrder(KeyOf(v), KeyOf(w), KeyOf(u));
    KeyOrder(KeyOf(w), KeyOf(u), KeyOf(v));
    KeyOrder(KeyOf(w), KeyOf(v), KeyOf(u));
    KeyOrder(KeyOf(v), KeyOf(u), KeyOf(w));
    KeyOrder(KeyOf(u), KeyOf(w), KeyOf(v));
    KeyOrder(KeyOf(v), KeyOf(w), KeyOf(v));
  }

  // ---------------------------------------------------------------- which versions share a key

  /** A number without its superfluous leading zeros; other text as it is. */
  function Bare(part: string): string {
    if |part| > 1 && part[0] == '0' && AllDigits(part) then Bare(part[1..]) else part
  }

  /** The identifiers that count, each in its bare form. */
  function Normal(parts: seq<string>): seq<string> {
    if parts == [] then []
    else if parts[0] == "" then Normal(parts[1..])
    else [Bare(parts[0])] + Normal(parts[1..])
  }

  predicate IsBare(s: string) {
    s != "" && (AllDigits(s) ==> Numeral(s))
  }

  lemma {:induction false} LeadingZero(s: string)
    requires AllDigits(s)
    ensures AllDigits("0" + s) && ParseNat("0" + s) == ParseNat(s)
  {
    if s != "" {
      var front := s[..|s| - 1];
      LeadingZero(front);
      assert ("0" + s)[..|s|] == "0" + front;
    } else {
      assert "0" + s == "0" && "0"[..0] == "";
    }
  }

  lemma {:induction false} BareIdent(part: string)
    requires part != ""
    ensures IsBare(Bare(part)) && IdentOf(Bare(part)) == IdentOf(part)
  {
    if |part| > 1 && part[0] == '0' && AllDigits(part) {
      BareIdent(part[1..]);
      LeadingZero(part[1..]);
      assert part == "0" + part[1..];
    }
  }

  lemma {:induction false} IdentsOfNormal(parts: seq<string>)
    ensures |IdentsOf(parts)| == |Normal(parts)|
    ensures forall i :: 0 <= i < |Normal(parts)| ==>
              IsBare(Normal(parts)[i]) && IdentsOf(parts)[i] == IdentOf(Normal(parts)[i])
  {
    hide Bare, IdentOf, IsBare;
    if parts != [] {
      IdentsOfNormal(parts[1..]);
      if parts[0] != "" {
        BareIdent(parts[0]);
      }
    }
  }

  lemma IdentOfInjective(x: string, y: string)
    requires IsBare(x) && IsBare(y)
    ensures IdentOf(x) == IdentOf(y) <==> x == y
  {
    hide ParseNat, Decimal;
    if AllDigits(x) && AllDigits(y) {
      DecimalParse(x);
      DecimalParse(y);
    }
  }

  lemma SameIdentsIff(a: seq<string>, b: seq<string>)
    ensures IdentsOf(a) == IdentsOf(b) <==> Normal(a) == Normal(b)
  {
    hide IdentsOf, Normal, IdentOf, IsBare;
    IdentsOfNormal(a);
    IdentsOfNormal(b);
    var x, y := Normal(a), Normal(b);
    forall i | 0 <= i < |x| && i < |y| ensures IdentsOf(a)[i] == IdentsOf(b)[i] <==> x[i] == y[i] {
      IdentOfInjective(x[i], y[i]);
    }
    if IdentsOf(a) == IdentsOf(b) {
      assert forall i :: 0 <= i < |x| ==> IdentsOf(a)[i] == IdentsOf(b)[i];
    }
  }

  lemma SameNumbersIff(a: seq<string>, b: seq<string>)
    requires ThreeNumerals(a) && ThreeNumerals(b)
    ensures CoreParses(a) && CoreParses(b) && (Numbers(a) == Numbers(b) <==> a == b)
  {
    hide ParseNat, Decimal;
    forall i | 0 <= i < 3 ensures ParseNat(a[i]) == ParseNat(b[i]) <==> a[i] == b[i] {
      DecimalParse(a[i]);
      DecimalParse(b[i]);
    }
    if Numbers(a) == Numbers(b) {
      forall i | 0 <= i < 3 ensures a[i] == b[i] {
        assert Numbers(a)[i] == ParseNat(a[i]) && Numbers(b)[i] == ParseNat(b[i]);
      }
      assert a == b;
    }
  }

  lemma TailEmptyIff(v: string)
    requires WellFormed(v)
    ensures After(v, '-') == "" <==> '-' !in v
  {
    if '-' !in v {
      PartitionNone(v, '-');
    }
  }

  /** Two admitted versions are equivalent if and only if they have the same core, both or
      neither have a hyphen, and their identifiers agree once empty ones are dropped and
      numbers lose their leading zeros. */
  lemma SameKeyIff(v: string, w: string)
    requires WellFormed(v) && WellFormed(w)
    ensures KeyOf(v) == KeyOf(w) <==>
      && Before(v, '-') == Before(w, '-')
      && ('-' in v <==> '-' in w)
      && Normal(Split(After(v, '-'), '.')) == Normal(Split(After(w, '-'), '.'))
  {
    hide Split, Before, After, Numbers, IdentsOf, Normal, Numeral, Join;
    var a, b := Split(Before(v, '-'), '.'), Split(Before(w, '-'), '.');
    SameNumbersIff(a, b);
    JoinSplit(Before(v, '-'), '.');
    JoinSplit(Before(w, '-'), '.');
    TailEmptyIff(v);
    TailEmptyIff(w);
    SameIdentsIff(Split(After(v, '-'), '.'), Split(After(w, '-'), '.'));
  }

  /** So the order is not antisymmetric: different admitted versions can share a key. */
  lemma KeysCollide()
    ensures WellFormed("0.0.0-1") && WellFormed("0.0.0-01") && KeyOf("0.0.0-1") == KeyOf("0.0.0-01")
  {
    hide Split, Before, After;
    var zero := ["0", "0", "0"];
    SplitJoin(zero, '.');
    assert Join(zero[1..], '.') == "0.0" && Join(zero, '.') == "0.0.0";
    assert "0.0.0" + "-" + "1" == "0.0.0-1" && "0.0.0" + "-" + "01" == "0.0.0-01";
    PartitionAt("0.0.0", '-', "1");
    PartitionAt("0.0.0", '-', "01");
    SplitNone("1", '.');
    SplitNone("01", '.');
    assert "01"[..1] == "0" && "1"[..0] == "" && "0"[..0] == "";
    assert ParseNat("01") == 10 * ParseNat("0") + 1 && ParseNat("0") == 0;
  }

  // ---------------------------------------------------------------- Semantic Versioning 2.0.0

  /** A version of that document, without build metadata: dot-separated identifiers follow the
      three numbers, none for a normal version. */
  datatype SemVer = SemVer(major: nat, minor: nat, patch: nat, prerelease: seq<string>)

  predicate IdentChar(c: char) {
    PrereleaseChar(c) && c != '.'
  }

  /** Identifiers are not empty, and numeric ones have no leading zero (item 9). */
  predicate ValidIdent(s: string) {
    && s != "" && (forall i :: 0 <= i < |s| ==> IdentChar(s[i]))
    && (AllDigits(s) ==> Numeral(s))
  }

  predicate ValidIdents(ids: seq<string>) {
    forall i :: 0 <= i < |ids| ==> ValidIdent(ids[i])
  }

  function Core(v: SemVer): seq<nat> {
    [v.major, v.minor, v.patch]
  }

  function Render(v: SemVer): string {
    var core := Decimal(v.major) + "." + Decimal(v.minor) + "." + Decimal(v.patch);
    if v.prerelease == [] then core else core + "-" + Join(v.prerelease, '.')
  }

  /** Items 11.4.1 to 11.4.3: numbers by value, other text in ASCII order, numbers lowest. */
  ghost predicate IdentPrecedes(x: string, y: string) {
    if AllDigits(x) && AllDigits(y) then ParseNat(x) < ParseNat(y)
    else if AllDigits(x) || AllDigits(y) then AllDigits(x)
    else exists k :: PartsAt(CharLt, x, y, k)
  }

  /** Item 11.4: the first differing identifier decides; item 11.4.4: fewer fields are lower. */
  ghost predicate IdentsPrecede(a: seq<string>, b: seq<string>) {
    exists k: nat ::
      && k <= |a| && k < |b| && a[..k] == b[..k]
      && (k < |a| ==> IdentPrecedes(a[k], b[k]))
  }

  /** Items 11.2 and 11.3. */
  ghost predicate Precedes(v: SemVer, w: SemVer) {
    if v.major != w.major then v.major < w.major
    else if v.minor != w.minor then v.minor < w.minor
    else if v.patch != w.patch then v.patch < w.patch
    else if v.prerelease == [] || w.prerelease == [] then v.prerelease != [] && w.prerelease == []
    else IdentsPrecede(v.prerelease, w.prerelease)
  }

  lemma DecimalPlain(n: nat)
    ensures '.' !in Decimal(n) && '-' !in Decimal(n)
  {
    assert forall i :: 0 <= i < |Decimal(n)| ==> IsDigit(Decimal(n)[i]);
  }

  function CoreText(v: SemVer): string {
    Join([Decimal(v.major), Decimal(v.minor), Decimal(v.patch)], '.')
  }

  lemma CoreTextSplits(v: SemVer)
    ensures Split(CoreText(v), '.') == [Decimal(v.major), Decimal(v.minor), Decimal(v.patch)]
    ensures '-' !in CoreText(v)
  {
    DecimalPlain(v.major);
    DecimalPlain(v.minor);
    DecimalPlain(v.patch);
    var parts := [Decimal(v.major), Decimal(v.minor), Decimal(v.patch)];
    SplitJoin(parts, '.');
    CoreTextIs(v);
  }

  lemma CoreTextIs(v: SemVer)
    ensures CoreText(v) == Decimal(v.major) + "." + Decimal(v.minor) + "." + Decimal(v.patch)
  {
    hide Decimal;
    var parts := [Decimal(v.major), Decimal(v.minor), Decimal(v.patch)];
    assert parts[1..] == [parts[1], parts[2]] && parts[1..][1..] == [parts[2]];
    assert Join(parts[1..], '.') == parts[1] + "." + parts[2];
    assert CoreText(v) == parts[0] + "." + (parts[1] + "." + parts[2]);
  }

  /** The text parts again into its three numbers and its identifiers. */
  lemma RenderParts(v: SemVer)
    requires ValidIdents(v.prerelease)
    ensures Before(Render(v), '-') == CoreText(v)
    ensures After(Render(v), '-') == Join(v.prerelease, '.')
    ensures v.prerelease != [] ==> Split(Join(v.prerelease, '.'), '.') == v.prerelease
  {
    hide Split, Before, After, Decimal;
    CoreTextSplits(v);
    RenderText(v);
    if v.prerelease == [] {
      PartitionNone(CoreText(v), '-');
    } else {
      PartitionAt(CoreText(v), '-', Join(v.prerelease, '.'));
      SplitJoin(v.prerelease, '.');
    }
  }

  lemma RenderText(v: SemVer)
    ensures Render(v) == if v.prerelease == [] then CoreText(v) else CoreText(v) + "-" + Join(v.prerelease, '.')
  {
    hide Decimal, CoreText, Join;
    CoreTextIs(v);
  }

  lemma {:induction false} IdentsOfValid(ids: seq<string>)
    requires ValidIdents(ids)
    ensures |IdentsOf(ids)| == |ids|
    ensures forall i :: 0 <= i < |ids| ==> IdentsOf(ids)[i] == IdentOf(ids[i])
  {
    if ids != [] {
      IdentsOfValid(ids[1..]);
    }
  }

  lemma JoinEmpty(ids: seq<string>)
    requires ValidIdents(ids)
    ensures Join(ids, '.') == "" <==> ids == []
  {
  }

  /** The key of a rendered version. */
  lemma KeyOfRender(v: SemVer)
    requires ValidIdents(v.prerelease)
    ensures Key(Render(v)) == Some(VersionKey(Core(v), v.prerelease == [], IdentsOf(v.prerelease)))
  {
    hide Split, Before, After, Decimal, IdentsOf, Join, ParseNat, Render, CoreText;
    RenderParts(v);
    CoreTextSplits(v);
    JoinEmpty(v.prerelease);
    ParseDecimal(v.major);
    ParseDecimal(v.minor);
    ParseDecimal(v.patch);
    assert Numbers([Decimal(v.major), Decimal(v.minor), Decimal(v.patch)]) == Core(v);
    if v.prerelease == [] {
      EmptyPrerelease();
    }
  }

  lemma EmptyPrerelease()
    ensures Join([], '.') == "" && IdentsOf(Split("", '.')) == IdentsOf([]) == []
  {
    assert Split("", '.') == [""];
  }

  lemma {:induction false} JoinChars(ids: seq<string>, i: nat)
    requires ValidIdents(ids) && i < |Join(ids, '.')|
    ensures PrereleaseChar(Join(ids, '.')[i])
  {
    if |ids| == 1 {
      assert ValidIdent(ids[0]);
    } else if ids != [] {
      assert ValidIdent(ids[0]);
      if i > |ids[0]| {
        JoinChars(ids[1..], i - |ids[0]| - 1);
      }
    }
  }

  /** The contracts admit every version of that document that has no build metadata. */
  lemma RenderWellFormed(v: SemVer)
    requires ValidIdents(v.prerelease)
    ensures WellFormed(Render(v))
  {
    hide Split, Before, After, Decimal, IdentsOf, Join, ParseNat, PrereleaseChar, Render, CoreText;
    RenderParts(v);
    CoreTextSplits(v);
    JoinEmpty(v.prerelease);
    ParseDecimal(v.major);
    ParseDecimal(v.minor);
    ParseDecimal(v.patch);
    forall i | 0 <= i < |Join(v.prerelease, '.')| ensures PrereleaseChar(Join(v.prerelease, '.')[i]) {
      JoinChars(v.prerelease, i);
    }
    if v.prerelease == [] {
      RenderText(v);
    }
  }

  lemma IdentOfFaithful(x: string, y: string)
    requires ValidIdent(x) && ValidIdent(y)
    ensures IdentOf(x) == IdentOf(y) <==> x == y
    ensures IdentLt(IdentOf(x), IdentOf(y)) <==> IdentPrecedes(x, y)
  {
    hide ParseNat, Decimal, LexLt;
    IdentOfInjective(x, y);
    if !AllDigits(x) && !AllDigits(y) {
      LexIsFirstDifference(CharLt, x, y);
    }
  }

  /** Identifier lists compare as their keys do. */
  lemma IdentsFaithful(a: seq<string>, b: seq<string>)
    requires ValidIdents(a) && ValidIdents(b)
    ensures LexLt(IdentLt, IdentsOf(a), IdentsOf(b)) <==> IdentsPrecede(a, b)
  {
    hide LexLt, IdentsOf, IdentOf, IdentLt, IdentPrecedes, ValidIdent;
    var x, y := IdentsOf(a), IdentsOf(b);
    IdentsOfValid(a);
    IdentsOfValid(b);
    LexIsFirstDifference(IdentLt, x, y);
    forall k: nat | k < |a| && k < |b|
      ensures (x[k] == y[k] <==> a[k] == b[k]) && (IdentLt(x[k], y[k]) <==> IdentPrecedes(a[k], b[k]))
    {
      IdentOfFaithful(a[k], b[k]);
    }
    forall k: nat | k <= |a| && k <= |b| ensures x[..k] == y[..k] <==> a[..k] == b[..k] {
      SamePrefixes(a, b, x, y, k);
    }
    if k: nat :| PartsAt(IdentLt, x, y, k) {
      assert a[..k] == b[..k];
    }
    if k: nat :| k <= |a| && k < |b| && a[..k] == b[..k] && (k < |a| ==> IdentPrecedes(a[k], b[k])) {
      assert PartsAt(IdentLt, x, y, k);
    }
  }

  lemma SamePrefixes(a: seq<string>, b: seq<string>, x: seq<Ident>, y: seq<Ident>, k: nat)
    requires |x| == |a| && |y| == |b| && k <= |a| && k <= |b|
    requires forall i: nat :: i < |a| && i < |b| ==> (x[i] == y[i] <==> a[i] == b[i])
    ensures x[..k] == y[..k] <==> a[..k] == b[..k]
  {
  }

  /** On versions of Semantic Versioning 2.0.0 the order is antisymmetric. */
  lemma RenderedKeysDiffer(v: SemVer, w: SemVer)
    requires ValidIdents(v.prerelease) && ValidIdents(w.prerelease)
    ensures KeyOf(Render(v)) == KeyOf(Render(w)) <==> v == w
  {
    hide Key, Render, IdentsOf, IdentOf, ValidIdent;
    var a, b := v.prerelease, w.prerelease;
    KeyOfRender(v);
    KeyOfRender(w);
    IdentsOfValid(a);
    IdentsOfValid(b);
    forall i | 0 <= i < |a| && i < |b| ensures IdentsOf(a)[i] == IdentsOf(b)[i] <==> a[i] == b[i] {
      IdentOfFaithful(a[i], b[i]);
    }
    if KeyOf(Render(v)) == KeyOf(Render(w)) {
      assert IdentsOf(a) == IdentsOf(b) && Core(v) == Core(w);
      assert forall i :: 0 <= i < |a| ==> a[i] == b[i];
      assert Core(v)[0] == Core(w)[0] && Core(v)[1] == Core(w)[1] && Core(v)[2] == Core(w)[2];
    }
  }

  /** On versions of Semantic Versioning 2.0.0 the key order is precedence. */
  lemma KeyOrderIsPrecedence(v: SemVer, w: SemVer)
    requires ValidIdents(v.prerelease) && ValidIdents(w.prerelease)
    ensures WellFormed(Render(v)) && WellFormed(Render(w))
    ensures Lt(Render(v), Render(w)) <==> Precedes(v, w)
  {
    hide Key, Render, IdentsOf, IdentsPrecede, WellFormed, ValidIdents;
    RenderWellFormed(v);
    RenderWellFormed(w);
    KeyOfRender(v);
    KeyOfRender(w);
    CoreLess(Core(v), Core(w));
    IdentsFaithful(v.prerelease, w.prerelease);
    if v.prerelease == [] && w.prerelease == [] {
      LexIrreflexive(IdentLt, IdentsOf(v.prerelease)) by { IdentOrder(); }
    }
  }

  lemma CoreLess(a: seq<nat>, b: seq<nat>)
    requires |a| == |b| == 3
    ensures LexLt(NatLt, a, b) <==>
      if a[0] != b[0] then a[0] < b[0] else if a[1] != b[1] then a[1] < b[1] else a[2] < b[2]
  {
    assert a[1..][1..] == [a[2]] && b[1..][1..] == [b[2]];
    assert a[1..][0] == a[1] && b[1..][0] == b[1];
    assert LexLt(NatLt, [a[2]], [b[2]]) <==> a[2] < b[2];
    assert LexLt(NatLt, a[1..], b[1..]) <==> if a[1] != b[1] then a[1] < b[1] else a[2] < b[2];
  }
}
