/** The E-Pay signature and money text (service/payment/epay.go). MD5 is a parameter:
    nothing here depends on which hash it is. */
module Epay {
  import opened Wrappers

  type Fields = map<string, string>
  type Hash = string -> string

  // ------------------------------------------------------------------ string order

  predicate Less(a: string, b: string) {
    if b == "" then false
    else if a == "" then true
    else if a[0] != b[0] then a[0] < b[0]
    else Less(a[1..], b[1..])
  }

  lemma {:induction false} LessTotal(a: string, b: string)
    ensures a == b || Less(a, b) || Less(b, a)
    ensures !(Less(a, b) && Less(b, a)) && !Less(a, a)
  {
    if a != "" && b != "" && a[0] == b[0] {
      LessTotal(a[1..], b[1..]);
      assert a == [a[0]] + a[1..] && b == [b[0]] + b[1..];
    }
    if a != "" { LessTotal(a[1..], a[1..]); }
  }

  lemma {:induction false} LessTransitive(a: string, b: string, c: string)
    requires Less(a, b) && Less(b, c)
    ensures Less(a, c)
  {
    if a != "" && a[0] == b[0] && b[0] == c[0] { LessTransitive(a[1..], b[1..], c[1..]); }
  }

  /** At the first n characters the two agree; there one ends, or has the smaller character. */
  ghost predicate PartAt(a: string, b: string, n: nat) {
    && n <= |a| && n < |b| && a[..n] == b[..n]
    && (n == |a| || a[n] < b[n])
  }

  /** The order is the lexicographic one. */
  lemma {:induction false} LessMeans(a: string, b: string)
    ensures Less(a, b) <==> exists n: nat :: PartAt(a, b, n)
  {
    if b != "" && a != "" && a[0] == b[0] {
      LessMeans(a[1..], b[1..]);
      if Less(a[1..], b[1..]) {
        var n: nat :| PartAt(a[1..], b[1..], n);
        PartDeeper(a, b, n);
      }
      forall n: nat | PartAt(a, b, n) ensures Less(a, b) {
        assert n > 0;
        assert a[1..][..n - 1] == a[..n][1..] && b[1..][..n - 1] == b[..n][1..];
        assert PartAt(a[1..], b[1..], n - 1);
      }
    } else if Less(a, b) {
      assert PartAt(a, b, 0);
    } else {
      forall n: nat ensures !PartAt(a, b, n) {
        if 0 < n <= |a| && n < |b| { assert a[..n][0] == a[0] && b[..n][0] == b[0]; }
      }
    }
  }

  lemma PartDeeper(a: string, b: string, n: nat)
    requires a != "" && b != "" && a[0] == b[0] && PartAt(a[1..], b[1..], n)
    ensures PartAt(a, b, n + 1)
  {
    assert a[..n + 1] == [a[0]] + a[1..][..n] && b[..n + 1] == [b[0]] + b[1..][..n];
  }

  ghost predicate Increasing(keys: seq<string>) {
    forall i, j :: 0 <= i < j < |keys| ==> Less(keys[i], keys[j])
  }

  ghost predicate Lists(keys: seq<string>, members: set<string>) {
    forall k :: k in keys <==> k in members
  }

  /** A set of keys has only one increasing listing: iteration order leaves no trace. */
  lemma {:induction false} ListingIsUnique(a: seq<string>, b: seq<string>, members: set<string>)
    requires Increasing(a) && Increasing(b) && Lists(a, members) && Lists(b, members)
    ensures a == b
    decreases |a|
  {
    if a != [] { assert a[|a| - 1] in b; }
    if b != [] { assert b[|b| - 1] in a; }
    if a != [] && b != [] {
      var n, m := |a| - 1, |b| - 1;
      LastIsGreatest(a, b[m]);
      LastIsGreatest(b, a[n]);
      LessTotal(a[n], b[m]);
      assert a[n] == b[m];
      DropLast(a, members);
      DropLast(b, members);
      ListingIsUnique(a[..n], b[..m], members - {a[n]});
      assert a == a[..n] + [a[n]] && b == b[..m] + [b[m]];
    }
  }

  lemma LastIsGreatest(keys: seq<string>, k: string)
    requires Increasing(keys) && k in keys
    ensures k == keys[|keys| - 1] || Less(k, keys[|keys| - 1])
  {
    var i :| 0 <= i < |keys| && keys[i] == k;
  }

  lemma DropLast(keys: seq<string>, members: set<string>)
    requires keys != [] && Increasing(keys) && Lists(keys, members)
    ensures Increasing(keys[..|keys| - 1]) && Lists(keys[..|keys| - 1], members - {keys[|keys| - 1]})
  {
    var n := |keys| - 1;
    assert keys == keys[..n] + [keys[n]];
    forall k ensures k in keys[..n] <==> k in members - {keys[n]} {
      if k in keys[..n] {
        var i :| 0 <= i < n && keys[i] == k;
        LessTotal(keys[n], keys[n]);
      }
    }
  }

  // ------------------------------------------------------------------ the signing rule

  /** The fields that are signed: not the signature ones, not empty ones. */
  function Signed(params: Fields): Fields {
    map k | k in params && k != "sign" && k != "sign_type" && params[k] != "" :: params[k]
  }

  /** The value of a field; a missing one reads as empty. */
  function Get(params: Fields, k: string): string { if k in params then params[k] else "" }

  /** Two field maps sign alike exactly when every field but the signature ones reads the
      same: an empty field is as good as none. */
  lemma SignedAgree(p: Fields, q: Fields)
    ensures Signed(p) == Signed(q) <==> forall k :: k != "sign" && k != "sign_type" ==> Get(p, k) == Get(q, k)
  {
    if Signed(p) == Signed(q) {
      forall k | k != "sign" && k != "sign_type" ensures Get(p, k) == Get(q, k) {
        assert k in Signed(p) <==> k in Signed(q);
      }
    }
    if forall k :: k != "sign" && k != "sign_type" ==> Get(p, k) == Get(q, k) {
      forall k ensures k in Signed(p) <==> k in Signed(q) {
        assert k != "sign" && k != "sign_type" ==> Get(p, k) == Get(q, k);
      }
      forall k | k in Signed(p) ensures Signed(p)[k] == Signed(q)[k] {
        assert Get(p, k) == Get(q, k);
      }
    }
  }

  /** k1=v1&k2=v2&... over the first n keys. */
  function Joined(params: Fields, keys: seq<string>, n: nat): string
    requires n <= |keys| && forall k :: k in keys ==> k in params
  {
    if n == 0 then ""
    else Joined(params, keys, n - 1) + (if n > 1 then "&" else "") + keys[n - 1] + "=" + params[keys[n - 1]]
  }

  /** `text` is the string that is hashed for these fields. */
  ghost predicate Canonical(params: Fields, text: string) {
    exists keys: seq<string> {:trigger Increasing(keys)} ::
      Increasing(keys) && Lists(keys, params.Keys) && text == Joined(params, keys, |keys|)
  }

  /** The canonical text is a function of the field map alone. */
  lemma CanonicalIsUnique(params: Fields, x: string, y: string)
    requires Canonical(params, x) && Canonical(params, y)
    ensures x == y
  {
    var a :| Increasing(a) && Lists(a, params.Keys) && x == Joined(params, a, |a|);
    var b :| Increasing(b) && Lists(b, params.Keys) && y == Joined(params, b, |b|);
    ListingIsUnique(a, b, params.Keys);
  }

  method InsertKey(keys: seq<string>, key: string) returns (longer: seq<string>)
    requires Increasing(keys) && key !in keys
    ensures Increasing(longer)
    ensures forall k :: k in longer <==> k in keys || k == key
  {
    var i := 0;
    while i < |keys| && Less(keys[i], key)
      invariant 0 <= i <= |keys|
      invariant forall j :: 0 <= j < i ==> Less(keys[j], key)
    {
      i := i + 1;
    }
    if i < |keys| { LessTotal(keys[i], key); }
    forall j | i <= j < |keys| ensures Less(key, keys[j]) {
      if j > i { LessTransitive(key, keys[i], keys[j]); }
    }
    longer := keys[..i] + [key] + keys[i..];
    Inserted(keys, key, i);
  }

  lemma Inserted(keys: seq<string>, key: string, i: nat)
    requires Increasing(keys) && i <= |keys|
    requires forall j :: 0 <= j < i ==> Less(keys[j], key)
    requires forall j :: i <= j < |keys| ==> Less(key, keys[j])
    ensures var longer := keys[..i] + [key] + keys[i..];
      Increasing(longer) && forall k :: k in longer <==> k in keys || k == key
  {
    assert keys == keys[..i] + keys[i..];
  }

  /** sort.Strings on distinct keys. */
  method SortStrings(keys: seq<string>) returns (sorted: seq<string>)
    requires forall i, j :: 0 <= i < j < |keys| ==> keys[i] != keys[j]
    ensures Increasing(sorted) && forall k :: k in sorted <==> k in keys
  {
    sorted := [];
    var n := 0;
    while n < |keys|
      invariant 0 <= n <= |keys|
      invariant Increasing(sorted) && forall k :: k in sorted <==> k in keys[..n]
    {
      assert keys[n] !in keys[..n];
      sorted := InsertKey(sorted, keys[n]);
      assert keys[..n + 1] == keys[..n] + [keys[n]];
      n := n + 1;
    }
    assert keys[..n] == keys;
  }

  /** epaySign: whatever order the map is walked in, the hash of the canonical text of the
      signed fields followed by the merchant key. */
  method EpaySign(params: Fields, key: string, md5: Hash) returns (sign: string)
    ensures exists text :: Canonical(Signed(params), text) && sign == md5(text + key)
    ensures forall text :: Canonical(Signed(params), text) ==> sign == md5(text + key)
  {
    var keys: seq<string> := [];
    var left := params.Keys;
    while left != {}
      invariant left <= params.Keys
      invariant forall i, j :: 0 <= i < j < |keys| ==> keys[i] != keys[j]
      invariant forall k :: k in keys <==> k in Signed(params) && k !in left
      decreases |left|
    {
      var k :| k in left;
      if k != "sign" && k != "sign_type" && params[k] != "" { keys := keys + [k]; }
      left := left - {k};
    }
    keys := SortStrings(keys);
    assert forall k :: k in keys ==> k in Signed(params);
    var text := "";
    var i := 0;
    while i < |keys|
      invariant 0 <= i <= |keys|
      invariant text == Joined(Signed(params), keys, i)
    {
      if i > 0 { text := text + "&"; }
      text := text + keys[i];
      text := text + "=";
      text := text + params[keys[i]];
      i := i + 1;
    }
    assert Lists(keys, Signed(params).Keys);
    assert Canonical(Signed(params), text);
    sign := md5(text + key);
    forall other | Canonical(Signed(params), other) ensures sign == md5(other + key) {
      CanonicalIsUnique(Signed(params), text, other);
    }
  }

  /** A signature that the merchant key and these fields call for. */
  ghost predicate SignedBy(sign: string, params: Fields, key: string, md5: Hash) {
    exists text :: Canonical(Signed(params), text) && sign == md5(text + key)
  }

  /** Only the signed part of the fields matters, and it fixes the signature. */
  lemma SignatureIsFixed(sign: string, other: string, params: Fields, params': Fields, key: string, md5: Hash)
    requires SignedBy(sign, params, key, md5) && SignedBy(other, params', key, md5)
    requires Signed(params) == Signed(params')
    ensures sign == other
  {
    var x :| Canonical(Signed(params), x) && sign == md5(x + key);
    var y :| Canonical(Signed(params'), y) && other == md5(y + key);
    CanonicalIsUnique(Signed(params), x, y);
  }

  // ------------------------------------------------------------------ which texts tell fields apart

  /** No separator inside a key, and no '&' inside a value. */
  ghost predicate Plain(params: Fields) {
    forall k :: k in params ==> '&' !in k && '=' !in k && '&' !in params[k]
  }

  lemma LastSeparator(x: string, s: string, c: char)
    requires c !in s
    ensures var whole := x + [c] + s;
      whole[|x|] == c && (forall i :: |x| < i < |whole| ==> whole[i] != c) && whole[..|x|] == x && whole[|x| + 1..] == s
  {
    var whole := x + [c] + s;
    forall i | |x| < i < |whole| ensures whole[i] != c {
      assert whole[i] == s[i - |x| - 1];
    }
  }

  lemma LastSplit(x: string, s: string, y: string, t: string, c: char)
    requires x + [c] + s == y + [c] + t && c !in s && c !in t
    ensures x == y && s == t
  {
    LastSeparator(x, s, c);
    LastSeparator(y, t, c);
  }

  lemma FirstSeparator(x: string, s: string, c: char)
    requires c !in x
    ensures var whole := x + [c] + s;
      whole[|x|] == c && (forall i :: 0 <= i < |x| ==> whole[i] != c) && whole[..|x|] == x && whole[|x| + 1..] == s
  {
    var whole := x + [c] + s;
    forall i | 0 <= i < |x| ensures whole[i] != c {
      assert whole[i] == x[i];
    }
  }

  lemma FirstSplit(x: string, s: string, y: string, t: string, c: char)
    requires x + [c] + s == y + [c] + t && c !in x && c !in y
    ensures x == y && s == t
  {
    FirstSeparator(x, s, c);
    FirstSeparator(y, t, c);
  }

  datatype Field = Field(key: string, value: string)

  ghost predicate PlainField(f: Field) { '&' !in f.key && '=' !in f.key && '&' !in f.value }

  function Pair(f: Field): string { f.key + "=" + f.value }

  function Text(fs: seq<Field>): string {
    if fs == [] then ""
    else Text(fs[..|fs| - 1]) + (if |fs| > 1 then "&" else "") + Pair(fs[|fs| - 1])
  }

  /** A separator shows exactly when there is more than one field. */
  lemma TextStep(fs: seq<Field>)
    requires fs != [] && PlainField(fs[|fs| - 1])
    ensures var before, last := Text(fs[..|fs| - 1]), Pair(fs[|fs| - 1]);
      && '&' !in last && Text(fs) != ""
      && Text(fs) == (if |fs| == 1 then last else before + ['&'] + last)
      && ('&' in Text(fs) <==> |fs| > 1)
  {
    var before, last := Text(fs[..|fs| - 1]), Pair(fs[|fs| - 1]);
    if |fs| == 1 {
      assert before == "";
    } else {
      assert (before + ['&'] + last)[|before|] == '&';
    }
  }

  /** One text of plain fields comes from one list of fields. */
  lemma {:induction false} TextInjective(fs: seq<Field>, gs: seq<Field>)
    requires forall f :: f in fs || f in gs ==> PlainField(f)
    requires Text(fs) == Text(gs)
    ensures fs == gs
  {
    if fs != [] { TextStep(fs); }
    if gs != [] { TextStep(gs); }
    if fs != [] && gs != [] {
      var n, m := |fs| - 1, |gs| - 1;
      if n > 0 && m > 0 {
        LastSplit(Text(fs[..n]), Pair(fs[n]), Text(gs[..m]), Pair(gs[m]), '&');
        TextInjective(fs[..n], gs[..m]);
      }
      FirstSplit(fs[n].key, fs[n].value, gs[m].key, gs[m].value, '=');
      assert fs == fs[..n] + [fs[n]] && gs == gs[..m] + [gs[m]];
    }
  }

  function FieldsOf(params: Fields, keys: seq<string>): (fs: seq<Field>)
    requires forall k :: k in keys ==> k in params
    ensures |fs| == |keys| && forall i :: 0 <= i < |keys| ==> fs[i] == Field(keys[i], params[keys[i]])
  {
    seq(|keys|, i requires 0 <= i < |keys| => Field(keys[i], params[keys[i]]))
  }

  lemma {:induction false} JoinedIsText(params: Fields, keys: seq<string>, n: nat)
    requires n <= |keys| && forall k :: k in keys ==> k in params
    ensures Joined(params, keys, n) == Text(FieldsOf(params, keys)[..n])
  {
    if n > 0 {
      JoinedIsText(params, keys, n - 1);
      var fs := FieldsOf(params, keys);
      assert fs[..n][..n - 1] == fs[..n - 1];
      assert Joined(params, keys, n) == Joined(params, keys, n - 1) + (if n > 1 then "&" else "") + Pair(fs[n - 1]);
    }
  }

  /** Without separators inside the fields the hashed text determines the field map. */
  lemma TextDeterminesFields(p: Fields, q: Fields, text: string)
    requires Plain(p) && Plain(q) && Canonical(p, text) && Canonical(q, text)
    ensures p == q
  {
    var a := PlainKeys(p, text);
    var b := PlainKeys(q, text);
    TextInjective(FieldsOf(p, a), FieldsOf(q, b));
    SameFields(p, q, a, b);
  }

  lemma PlainKeys(params: Fields, text: string) returns (keys: seq<string>)
    requires Plain(params) && Canonical(params, text)
    ensures Lists(keys, params.Keys) && text == Text(FieldsOf(params, keys))
    ensures forall f :: f in FieldsOf(params, keys) ==> PlainField(f)
  {
    keys :| Increasing(keys) && Lists(keys, params.Keys) && text == Joined(params, keys, |keys|);
    JoinedIsText(params, keys, |keys|);
    var fs := FieldsOf(params, keys);
    assert fs[..|keys|] == fs;
    forall f | f in fs ensures PlainField(f) {
      var i :| 0 <= i < |fs| && fs[i] == f;
      assert keys[i] in params;
    }
  }

  lemma SameFields(p: Fields, q: Fields, a: seq<string>, b: seq<string>)
    requires Lists(a, p.Keys) && Lists(b, q.Keys) && FieldsOf(p, a) == FieldsOf(q, b)
    ensures p == q
  {
    forall i | 0 <= i < |a| ensures a[i] == b[i] && p[a[i]] == q[b[i]] {
      assert FieldsOf(p, a)[i] == FieldsOf(q, b)[i];
    }
    assert a == b;
    assert forall k :: k in p <==> k in q;
    forall k | k in p ensures p[k] == q[k] {
      var i :| 0 <= i < |a| && a[i] == k;
    }
  }

  /** With them it does not: two field maps, one text. */
  lemma SeparatorCollision() returns (p: Fields, q: Fields, text: string)
    ensures p != q && Canonical(p, text) && Canonical(q, text)
  {
    p, q, text := map["a" := "1&b=2"], map["a" := "1", "b" := "2"], "a=1&b=2";
    var one, two := ["a"], ["a", "b"];
    assert Increasing(one) && Lists(one, p.Keys);
    assert Increasing(two) && Lists(two, q.Keys);
    assert Joined(p, one, 0) == "" && Joined(q, two, 0) == "";
    assert Joined(p, one, 1) == text;
    assert Joined(q, two, 1) == "a=1";
    assert Joined(q, two, 2) == text;
    assert "a" in p && "b" !in p;
  }

  // ------------------------------------------------------------------ money as text

  function Digit(d: nat): char
    requires d < 10
  {
    '0' + d as char
  }

  function Digits(n: nat): (s: string)
    ensures s != ""
  {
    if n < 10 then [Digit(n)] else Digits(n / 10) + [Digit(n % 10)]
  }

  /** %d */
  function Decimal(n: int): string { if n < 0 then "-" + Digits(-n) else Digits(n) }

  predicate IsDigit(c: char) { '0' <= c <= '9' }

  predicate AllDigits(s: string) { forall i :: 0 <= i < |s| ==> IsDigit(s[i]) }

  function ParseNat(s: string): nat
    requires AllDigits(s)
  {
    if s == "" then 0 else 10 * ParseNat(s[..|s| - 1]) + (s[|s| - 1] - '0') as nat
  }

  lemma {:induction false} DigitsParse(n: nat)
    ensures AllDigits(Digits(n)) && ParseNat(Digits(n)) == n
  {
    if n < 10 {
      assert Digits(n)[..0] == "";
    } else {
      DigitsParse(n / 10);
      var s := Digits(n);
      assert s[..|s| - 1] == Digits(n / 10);
    }
  }

  /** fmt.Sprintf("%.2f", cents / 100). */
  function FormatYuan(cents: nat): string {
    Digits(cents / 100) + "." + [Digit(cents % 100 / 10), Digit(cents % 100 % 10)]
  }

  function Pow10(n: nat): (p: nat)
    ensures p >= 1
  {
    if n == 0 then 1 else 10 * Pow10(n - 1)
  }

  function IndexOfDot(s: string): (i: nat)
    ensures i <= |s| && (i < |s| ==> s[i] == '.') && forall j :: 0 <= j < i ==> s[j] != '.'
  {
    if s == "" || s[0] == '.' then 0 else 1 + IndexOfDot(s[1..])
  }

  /** 0.d1d2... */
  function Fraction(digits: string): real
    requires AllDigits(digits)
  {
    ParseNat(digits) as real / Pow10(|digits|) as real
  }

  /** strconv.ParseFloat on plain decimals: digits, at most one point, at least one digit. */
  function ParseDecimal(s: string): Option<real> {
    var dot := IndexOfDot(s);
    var whole := s[..dot];
    var fraction := if dot < |s| then s[dot + 1..] else "";
    if !AllDigits(whole) || !AllDigits(fraction) || |whole| + |fraction| == 0 then None
    else Some(ParseNat(whole) as real + Fraction(fraction))
  }

  /** math.Round: halves away from zero. */
  function Round(x: real): int {
    if x >= 0.0 then (x + 0.5).Floor else -((-x + 0.5).Floor)
  }

  lemma TwoDigits(tens: nat, ones: nat)
    requires tens < 10 && ones < 10
    ensures var f := [Digit(tens), Digit(ones)]; AllDigits(f) && ParseNat(f) == 10 * tens + ones
  {
    var f := [Digit(tens), Digit(ones)];
    assert f[..1] == [Digit(tens)] && f[..1][..0] == "";
    assert ParseNat(f[..1]) == tens;
  }

  lemma DotFound(whole: string, fraction: string)
    requires AllDigits(whole)
    ensures IndexOfDot(whole + "." + fraction) == |whole|
  {
    var s := whole + "." + fraction;
    assert s[|whole|] == '.';
    assert forall j :: 0 <= j < |whole| ==> s[j] == whole[j] && s[j] != '.';
  }

  lemma {:induction false} DecimalParses(whole: string, fraction: string)
    requires AllDigits(whole) && AllDigits(fraction) && |whole| + |fraction| > 0
    ensures ParseDecimal(whole + "." + fraction) == Some(ParseNat(whole) as real + Fraction(fraction))
  {
    var s := whole + "." + fraction;
    DotFound(whole, fraction);
    assert s[..|whole|] == whole && s[|whole| + 1..] == fraction;
  }

  /** The point and what follows may be missing. */
  lemma {:induction false} WholeParses(whole: string)
    requires AllDigits(whole) && whole != ""
    ensures ParseDecimal(whole) == Some(ParseNat(whole) as real)
  {
    assert IndexOfDot(whole) == |whole|;
    assert whole[..|whole|] == whole;
    assert Fraction("") == 0.0;
  }

  /** Nothing else is read. */
  lemma OnlyDecimals(s: string)
    requires ParseDecimal(s).Some?
    ensures AllDigits(s) || exists i :: 0 <= i < |s| && s[i] == '.' && AllDigits(s[..i]) && AllDigits(s[i + 1..])
  {
    if IndexOfDot(s) == |s| { assert s[..|s|] == s; }
  }

  lemma Hundredths(cents: nat)
    ensures var f := [Digit(cents % 100 / 10), Digit(cents % 100 % 10)];
      AllDigits(f) && Fraction(f) == (cents % 100) as real / 100.0
  {
    TwoDigits(cents % 100 / 10, cents % 100 % 10);
    assert Pow10(2) == 100 by { assert Pow10(1) == 10; }
  }

  /** The text names exactly the amount, in yuan. */
  lemma FormatParses(cents: nat)
    ensures ParseDecimal(FormatYuan(cents)) == Some((cents / 100) as real + (cents % 100) as real / 100.0)
  {
    DigitsParse(cents / 100);
    Hundredths(cents);
    DecimalParses(Digits(cents / 100), [Digit(cents % 100 / 10), Digit(cents % 100 % 10)]);
  }

  lemma TwelveThirtyFour()
    ensures FormatYuan(1234) == "12.34" && FormatYuan(5) == "0.05"
  {
    assert Digits(1) == "1" && Digits(12) == "12" && Digits(0) == "0";
  }

  /** The amount a callback reports, in cents. */
  function ReadCents(s: string): Option<int> {
    var yuan := ParseDecimal(s);
    if yuan.None? then None else Some(Round(yuan.value * 100.0))
  }

  lemma RoundExact(whole: nat, hundredths: nat)
    ensures Round((whole as real + hundredths as real / 100.0) * 100.0) == 100 * whole + hundredths
  {
    assert (whole as real + hundredths as real / 100.0) * 100.0 == (100 * whole + hundredths) as real;
  }

  /** Cents printed as yuan, parsed and rounded are the same cents. */
  lemma MoneyRoundTrip(cents: nat)
    ensures ReadCents(FormatYuan(cents)) == Some(cents)
  {
    FormatParses(cents);
    RoundExact(cents / 100, cents % 100);
  }

  function Price(cents: int, quotaPerUnit: real): real { cents as real / 100.0 * quotaPerUnit }

  /** The quota bought with an amount; None is one of the three refusals. */
  function MoneyToQuota(cents: int, quotaPerUnit: real): Option<int> {
    if cents <= 0 || quotaPerUnit <= 0.0 then None
    else
      var quota := Round(Price(cents, quotaPerUnit));
      if quota <= 0 then None else Some(quota)
  }

  lemma RoundNearest(x: real, y: real)
    requires 0.0 <= x <= y
    ensures Round(x) as real - 0.5 <= x < Round(x) as real + 0.5
    ensures Round(x) <= Round(y) && (Round(x) > 0 <==> x >= 0.5)
  {
  }

  lemma TimesMonotone(x: real, y: real, p: real)
    requires x <= y && p > 0.0
    ensures x * p <= y * p
  {
  }

  /** The quota is the nearest whole number to the exact price, refused exactly below one
      half, and paying more never buys less. */
  lemma MoneyBuys(cents: int, more: int, quotaPerUnit: real)
    requires 0 < cents <= more && quotaPerUnit > 0.0
    ensures MoneyToQuota(cents, quotaPerUnit).Some? <==> cents as real / 100.0 * quotaPerUnit >= 0.5
    ensures MoneyToQuota(cents, quotaPerUnit).Some? ==>
      var quota := MoneyToQuota(cents, quotaPerUnit).value;
      && quota as real - 0.5 <= cents as real / 100.0 * quotaPerUnit < quota as real + 0.5
      && MoneyToQuota(more, quotaPerUnit).Some? && quota <= MoneyToQuota(more, quotaPerUnit).value
  {
    var x, y := Price(cents, quotaPerUnit), Price(more, quotaPerUnit);
    assert 0.0 <= x <= y by {
      TimesMonotone(0.0, cents as real / 100.0, quotaPerUnit);
      TimesMonotone(cents as real / 100.0, more as real / 100.0, quotaPerUnit);
    }
    RoundNearest(x, y);
  }

  // ------------------------------------------------------------------ orders and callbacks

  datatype Merchant = Merchant(id: string, key: string, method_: string)

  datatype PendingOrder = PendingOrder(tradeNo: string, cents: int, quota: int, notifyUrl: string, returnUrl: string)

  datatype Callback =
    | MissingSignature | SignatureMismatch | MissingTradeNo | BadMoney
    | StillPending(tradeNo: string)
    | Paid(tradeNo: string, gatewayTradeNo: string, cents: int, payMethod: string)

  function LowerAscii(c: char): char { if 'A' <= c <= 'Z' then c - 'A' + 'a' else c }

  /** strings.EqualFold on hexadecimal text. */
  predicate EqualFold(a: string, b: string) {
    |a| == |b| && forall i :: 0 <= i < |a| ==> LowerAscii(a[i]) == LowerAscii(b[i])
  }

  /** Equal but for the case of letters, whose two forms lie 32 apart. */
  lemma FoldMeans(a: string, b: string)
    ensures EqualFold(a, b) <==>
      |a| == |b| && forall i :: 0 <= i < |a| ==>
        || a[i] == b[i]
        || ('A' <= a[i] <= 'Z' && b[i] as int == a[i] as int + 32)
        || ('A' <= b[i] <= 'Z' && a[i] as int == b[i] as int + 32)
  {
    assert forall c: char :: 'A' <= c <= 'Z' ==> LowerAscii(c) as int == c as int + 32;
    assert forall c: char :: !('A' <= c <= 'Z') ==> LowerAscii(c) == c;
  }

  function OrderFields(merchant: Merchant, order: PendingOrder): Fields
    requires order.cents > 0
  {
    map[
      "pid" := merchant.id,
      "type" := if merchant.method_ == "" then "alipay" else merchant.method_,
      "out_trade_no" := order.tradeNo,
      "notify_url" := order.notifyUrl,
      "return_url" := order.returnUrl,
      "name" := "Top up " + Decimal(order.quota) + " quota",
      "money" := FormatYuan(order.cents)]
  }

  /** The order as the gateway reads it from the redirect, field by field. */
  ghost predicate Redirects(params: Fields, merchant: Merchant, order: PendingOrder) {
    && Get(params, "pid") == merchant.id
    && Get(params, "type") == (if merchant.method_ == "" then "alipay" else merchant.method_)
    && Get(params, "out_trade_no") == order.tradeNo
    && Get(params, "notify_url") == order.notifyUrl
    && Get(params, "return_url") == order.returnUrl
    && Get(params, "name") == "Top up " + Decimal(order.quota) + " quota"
    && ReadCents(Get(params, "money")) == Some(order.cents)
  }

  lemma OrderFieldsRedirect(merchant: Merchant, order: PendingOrder)
    requires order.cents > 0
    ensures Redirects(OrderFields(merchant, order), merchant, order)
  {
    MoneyRoundTrip(order.cents);
  }

  lemma SignedRedirect(fields: Fields, sign: string, merchant: Merchant, order: PendingOrder)
    requires Redirects(fields, merchant, order)
    ensures var all := fields["sign" := sign]["sign_type" := "MD5"];
      Redirects(all, merchant, order) && Signed(all) == Signed(fields)
  {
    SignedAgree(fields["sign" := sign]["sign_type" := "MD5"], fields);
  }

  /** The fields of the redirect URL; None is one of the three refusals. */
  method CreateOrder(merchant: Merchant, order: PendingOrder, md5: Hash) returns (params: Option<Fields>)
    ensures params.Some? <==> order.tradeNo != "" && order.cents > 0
    ensures params.Some? ==> Redirects(params.value, merchant, order)
    ensures params.Some? ==> Get(params.value, "sign_type") == "MD5"
    ensures params.Some? ==> SignedBy(Get(params.value, "sign"), params.value, merchant.key, md5)
  {
    if order.tradeNo == "" || order.cents <= 0 { return None; }
    var fields := OrderFields(merchant, order);
    OrderFieldsRedirect(merchant, order);
    var sign := EpaySign(fields, merchant.key, md5);
    SignedRedirect(fields, sign, merchant, order);
    params := Some(fields["sign" := sign]["sign_type" := "MD5"]);
  }

  ghost predicate Authentic(raw: Fields, key: string, md5: Hash) {
    exists sign :: SignedBy(sign, raw, key, md5) && EqualFold(Get(raw, "sign"), sign)
  }

  /** What the callback handler answers to these fields. */
  ghost predicate Handled(raw: Fields, key: string, md5: Hash, r: Callback) {
    var tradeNo, money := Get(raw, "out_trade_no"), ReadCents(Get(raw, "money"));
    if Get(raw, "sign") == "" then r == MissingSignature
    else if !Authentic(raw, key, md5) then r == SignatureMismatch
    else if tradeNo == "" then r == MissingTradeNo
    else if Get(raw, "trade_status") != "TRADE_SUCCESS" then r == StillPending(tradeNo)
    else if money.None? then r == BadMoney
    else r == Paid(tradeNo, Get(raw, "trade_no"), money.value, Get(raw, "type"))
  }

  method WithoutSignature(raw: Fields) returns (signing: Fields)
    ensures Signed(signing) == Signed(raw)
  {
    signing := map[];
    var left := raw.Keys;
    while left != {}
      invariant left <= raw.Keys
      invariant forall k :: k in signing <==> k in raw && k !in left && k != "sign" && k != "sign_type"
      invariant forall k :: k in signing ==> signing[k] == raw[k]
      decreases |left|
    {
      var k :| k in left;
      if !(k == "sign" || k == "sign_type") { signing := signing[k := raw[k]]; }
      left := left - {k};
    }
  }

  method HandleCallback(raw: Fields, key: string, md5: Hash) returns (r: Callback)
    ensures Handled(raw, key, md5, r)
  {
    var sign := Get(raw, "sign");
    if sign == "" { return MissingSignature; }
    var signing := WithoutSignature(raw);
    var expected := EpaySign(signing, key, md5);
    AuthenticIff(raw, expected, key, md5);
    if !EqualFold(sign, expected) { return SignatureMismatch; }
    var tradeNo := Get(raw, "out_trade_no");
    if tradeNo == "" { return MissingTradeNo; }
    if Get(raw, "trade_status") != "TRADE_SUCCESS" { return StillPending(tradeNo); }
    var money := ReadCents(Get(raw, "money"));
    if money.None? { return BadMoney; }
    return Paid(tradeNo, Get(raw, "trade_no"), money.value, Get(raw, "type"));
  }

  lemma AuthenticIff(raw: Fields, expected: string, key: string, md5: Hash)
    requires SignedBy(expected, raw, key, md5)
    ensures Authentic(raw, key, md5) <==> EqualFold(Get(raw, "sign"), expected)
  {
    forall other | SignedBy(other, raw, key, md5) ensures other == expected {
      SignatureIsFixed(other, expected, raw, raw, key, md5);
    }
  }

  /** Any field set signed by the rule verifies: with the signature fields added, every
      other field reads as before and the signature is authentic. */
  lemma SignedVerifies(fields: Fields, sign: string, key: string, md5: Hash)
    requires SignedBy(sign, fields, key, md5)
    ensures var raw := fields["sign" := sign]["sign_type" := "MD5"];
      && Get(raw, "sign") == sign && Authentic(raw, key, md5)
      && forall k :: k != "sign" && k != "sign_type" ==> Get(raw, k) == Get(fields, k)
  {
    var raw := fields["sign" := sign]["sign_type" := "MD5"];
    assert Signed(raw) == Signed(fields);
    assert SignedBy(sign, raw, key, md5);
    assert EqualFold(Get(raw, "sign"), sign);
  }

  /** An authentic success notification for an order of `cents` is read back as exactly
      `cents`, so the paid >= expected check of the order holds with equality. */
  lemma HonestCallback(raw: Fields, cents: nat, key: string, md5: Hash, r: Callback)
    requires Get(raw, "sign") != "" && Authentic(raw, key, md5) && Handled(raw, key, md5, r)
    requires Get(raw, "out_trade_no") != "" && Get(raw, "trade_status") == "TRADE_SUCCESS"
    requires Get(raw, "money") == FormatYuan(cents)
    ensures r == Paid(Get(raw, "out_trade_no"), Get(raw, "trade_no"), cents, Get(raw, "type"))
  {
    MoneyRoundTrip(cents);
  }

  /** From the redirect to the credit: an authentic success notification that repeats the
      trade number and the money of a created order pays that order, exactly its cents. */
  lemma RedirectIsPaid(params: Fields, merchant: Merchant, order: PendingOrder, raw: Fields, md5: Hash, r: Callback)
    requires Redirects(params, merchant, order) && order.tradeNo != ""
    requires Get(raw, "sign") != "" && Authentic(raw, merchant.key, md5) && Handled(raw, merchant.key, md5, r)
    requires Get(raw, "trade_status") == "TRADE_SUCCESS"
    requires Get(raw, "out_trade_no") == Get(params, "out_trade_no") && Get(raw, "money") == Get(params, "money")
    ensures r == Paid(order.tradeNo, Get(raw, "trade_no"), order.cents, Get(raw, "type"))
  {
  }
}
