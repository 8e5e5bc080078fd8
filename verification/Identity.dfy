/** What identifies a Cashu token and a paid request: the digested encodings of
    `token_id` and `request_hash`. The digest is an arbitrary function; byte
    strings are written as `string`. */
module Identity {
  import opened Basics
  import opened Json

  type Digest = string -> string

  /** No two of these texts share a digest. */
  ghost predicate CollisionFree(d: Digest, texts: set<string>) {
    forall x, y :: x in texts && y in texts && d(x) == d(y) ==> x == y
  }

  // ---------- byte order of strings ----------

  predicate Before(a: string, b: string) {
    a == "" || (b != "" && (a[0] < b[0] || (a[0] == b[0] && Before(a[1..], b[1..]))))
  }

  lemma {:induction false} BeforeTotal(a: string, b: string)
    ensures Before(a, b) || Before(b, a)
    decreases |a|
  {
    if a != "" && b != "" { BeforeTotal(a[1..], b[1..]); }
  }

  lemma {:induction false} BeforeAntisymmetric(a: string, b: string)
    requires Before(a, b) && Before(b, a)
    ensures a == b
    decreases |a|
  {
    if a != "" && b != "" {
      BeforeAntisymmetric(a[1..], b[1..]);
      assert a == [a[0]] + a[1..] && b == [b[0]] + b[1..];
    }
  }

  lemma {:induction false} BeforeTransitive(a: string, b: string, c: string)
    requires Before(a, b) && Before(b, c)
    ensures Before(a, c)
    decreases |a|
  {
    if a != "" && a[0] == b[0] == c[0] { BeforeTransitive(a[1..], b[1..], c[1..]); }
  }

  predicate Ordered(s: seq<string>) { forall i, j :: 0 <= i < j < |s| ==> Before(s[i], s[j]) }

  function Insert(x: string, s: seq<string>): seq<string> {
    if s == [] || Before(x, s[0]) then [x] + s else [s[0]] + Insert(x, s[1..])
  }

  function Sort(s: seq<string>): seq<string> { if s == [] then [] else Insert(s[0], Sort(s[1..])) }

  lemma {:induction false} InsertContents(x: string, s: seq<string>)
    ensures multiset(Insert(x, s)) == multiset(s) + multiset{x}
    decreases |s|
  {
    if s != [] && !Before(x, s[0]) {
      InsertContents(x, s[1..]);
      assert s == [s[0]] + s[1..];
    }
  }

  lemma OrderedCons(x: string, s: seq<string>)
    requires Ordered(s) && forall y :: y in s ==> Before(x, y)
    ensures Ordered([x] + s)
  {
    var all := [x] + s;
    forall i, j | 0 <= i < j < |all| ensures Before(all[i], all[j]) {
      assert all[j] == s[j - 1];
      if i > 0 { assert all[i] == s[i - 1]; }
    }
  }

  lemma {:induction false} InsertOrdered(x: string, s: seq<string>)
    requires Ordered(s)
    ensures Ordered(Insert(x, s))
    decreases |s|
  {
    if s == [] {
    } else if Before(x, s[0]) {
      forall y | y in s ensures Before(x, y) {
        var i :| 0 <= i < |s| && s[i] == y;
        if i > 0 { BeforeTransitive(x, s[0], y); }
      }
      OrderedCons(x, s);
    } else {
      var rest := Insert(x, s[1..]);
      InsertOrdered(x, s[1..]);
      InsertContents(x, s[1..]);
      BeforeTotal(x, s[0]);
      forall y | y in rest ensures Before(s[0], y) {
        assert y in multiset(rest);
        if y != x {
          assert y in s[1..];
          var i :| 0 <= i < |s[1..]| && s[1..][i] == y;
          assert s[i + 1] == y;
        }
      }
      OrderedCons(s[0], rest);
    }
  }

  lemma {:induction false} SortIsSort(s: seq<string>)
    ensures Ordered(Sort(s)) && multiset(Sort(s)) == multiset(s)
    decreases |s|
  {
    if s != [] {
      SortIsSort(s[1..]);
      InsertOrdered(s[0], Sort(s[1..]));
      InsertContents(s[0], Sort(s[1..]));
      assert s == [s[0]] + s[1..];
    }
  }

  lemma FirstIsLeast(s: seq<string>, y: string)
    requires s != [] && Ordered(s) && y in s
    ensures Before(s[0], y)
  {
    var i :| 0 <= i < |s| && s[i] == y;
    if i == 0 { BeforeTotal(y, y); }
  }

  lemma TailContents(s: seq<string>)
    requires s != [] && Ordered(s)
    ensures s == [s[0]] + s[1..] && multiset(s[1..]) == multiset(s) - multiset{s[0]} && Ordered(s[1..])
  {
    assert s == [s[0]] + s[1..];
    forall i, j | 0 <= i < j < |s[1..]| ensures Before(s[1..][i], s[1..][j]) {
      assert s[1..][i] == s[i + 1] && s[1..][j] == s[j + 1];
    }
  }

  lemma {:induction false} OrderedIsUnique(a: seq<string>, b: seq<string>)
    requires Ordered(a) && Ordered(b) && multiset(a) == multiset(b)
    ensures a == b
    decreases |a|
  {
    assert |multiset(a)| == |a| && |multiset(b)| == |b|;
    if a != [] {
      assert a[0] in multiset(a) && b[0] in multiset(b);
      FirstIsLeast(a, b[0]);
      FirstIsLeast(b, a[0]);
      BeforeAntisymmetric(a[0], b[0]);
      TailContents(a);
      TailContents(b);
      OrderedIsUnique(a[1..], b[1..]);
    }
  }

  // ---------- length-prefixed encoding ----------

  function Power(k: nat): (r: nat) ensures r >= 1 { if k == 0 then 1 else 256 * Power(k - 1) }

  /** The low `k` bytes of `n`, most significant first. */
  function BigEndian(n: nat, k: nat): (r: string)
    ensures |r| == k
  {
    if k == 0 then "" else BigEndian(n / 256, k - 1) + [(n % 256) as char]
  }

  /** The number that bytes stand for, the most significant first. */
  function Number(bytes: string): nat {
    if bytes == "" then 0 else 256 * Number(bytes[..|bytes| - 1]) + bytes[|bytes| - 1] as int
  }

  lemma {:induction false} BigEndianNumber(n: nat, k: nat)
    requires n < Power(k)
    ensures |BigEndian(n, k)| == k && Number(BigEndian(n, k)) == n
    decreases k
  {
    if k > 0 {
      assert n / 256 < Power(k - 1);
      BigEndianNumber(n / 256, k - 1);
      assert BigEndian(n, k)[..k - 1] == BigEndian(n / 256, k - 1);
    }
  }

  lemma BigEndianInjective(m: nat, n: nat, k: nat)
    requires m < Power(k) && n < Power(k) && BigEndian(m, k) == BigEndian(n, k)
    ensures m == n
  {
    BigEndianNumber(m, k);
    BigEndianNumber(n, k);
  }

  function EncodeOne(s: string): string { BigEndian(|s|, 8) + s }

  function Encode(s: seq<string>): string { if s == [] then "" else EncodeOne(s[0]) + Encode(s[1..]) }

  /** Lengths that a u64 holds, as those of all strings in memory do. */
  predicate Sized(s: seq<string>) { forall x :: x in s ==> |x| < Power(8) }

  lemma EncodeOneIsPrefixFree(a: string, b: string, x: string, y: string)
    requires |a| < Power(8) && |b| < Power(8) && EncodeOne(a) + x == EncodeOne(b) + y
    ensures a == b && x == y
  {
    var p, q := EncodeOne(a) + x, EncodeOne(b) + y;
    assert p[..8] == BigEndian(|a|, 8) && q[..8] == BigEndian(|b|, 8);
    BigEndianInjective(|a|, |b|, 8);
    assert p[8..8 + |a|] == a && q[8..8 + |b|] == b;
    assert p[8 + |a|..] == x && q[8 + |b|..] == y;
  }

  lemma {:induction false} EncodeIsInjective(a: seq<string>, b: seq<string>)
    requires Sized(a) && Sized(b) && Encode(a) == Encode(b)
    ensures a == b
    decreases |a|
  {
    if a != [] && b != [] {
      assert a[0] in a && b[0] in b;
      EncodeOneIsPrefixFree(a[0], b[0], Encode(a[1..]), Encode(b[1..]));
      EncodeIsInjective(a[1..], b[1..]);
      assert a == [a[0]] + a[1..] && b == [b[0]] + b[1..];
    }
  }

  function TokenId(d: Digest, secrets: seq<string>): string { d(Encode(Sort(secrets))) }

  /** `token_id`: the sorted secrets, each behind its length, in one buffer. */
  method ComputeTokenId(d: Digest, secrets: seq<string>) returns (id: string)
    ensures id == TokenId(d, secrets)
  {
    var sorted := Sort(secrets);
    var input, i := "", 0;
    while i < |sorted|
      invariant 0 <= i <= |sorted|
      invariant input == Encode(sorted[..i])
    {
      EncodeSnoc(sorted[..i], sorted[i]);
      assert sorted[..i + 1] == sorted[..i] + [sorted[i]];
      input := input + BigEndian(|sorted[i]|, 8);
      input := input + sorted[i];
      i := i + 1;
    }
    assert sorted[..i] == sorted;
    id := d(input);
  }

  lemma {:induction false} EncodeSnoc(s: seq<string>, x: string)
    ensures Encode(s + [x]) == Encode(s) + BigEndian(|x|, 8) + x
    decreases |s|
  {
    if s == [] {
      assert s + [x] == [x] && Encode([x][1..]) == "";
    } else {
      assert (s + [x])[1..] == s[1..] + [x];
      EncodeSnoc(s[1..], x);
    }
  }

  /** Two tokens have one id exactly when they hold the same proofs, in whatever
      order and encoding. */
  lemma TokenIdsIdentifyProofs(d: Digest, a: seq<string>, b: seq<string>)
    requires Sized(a) && Sized(b) && CollisionFree(d, {Encode(Sort(a)), Encode(Sort(b))})
    ensures TokenId(d, a) == TokenId(d, b) <==> multiset(a) == multiset(b)
  {
    SortIsSort(a);
    SortIsSort(b);
    if TokenId(d, a) == TokenId(d, b) {
      forall x | x in Sort(a) ensures |x| < Power(8) { assert x in multiset(Sort(a)); }
      forall x | x in Sort(b) ensures |x| < Power(8) { assert x in multiset(Sort(b)); }
      EncodeIsInjective(Sort(a), Sort(b));
    }
    if multiset(a) == multiset(b) { OrderedIsUnique(Sort(a), Sort(b)); }
  }

  // ---------- JSON arrays and objects ----------

  type Encoder<!T> = T -> string

  predicate Delimits<T(==)>(e: Encoder<T>, a: T, b: T, x: string, y: string) {
    e(a) + x == e(b) + y ==> a == b && x == y
  }

  predicate StartsElement<T>(e: Encoder<T>, a: T) { e(a) != "" && e(a)[0] != ']' && e(a)[0] != ',' }

  /** Encodings that end where they end, whatever follows, and never begin like
      the end of an array. */
  ghost predicate PrefixFree<T(!new)>(e: Encoder<T>) {
    && (forall a, b, x, y :: Delimits(e, a, b, x, y))
    && (forall a :: StartsElement(e, a))
  }

  function Elements<T>(e: Encoder<T>, xs: seq<T>, first: bool): string {
    if xs == [] then "]" else Separator(first) + e(xs[0]) + Elements(e, xs[1..], false)
  }

  function JsonArray<T>(e: Encoder<T>, xs: seq<T>): string { "[" + Elements(e, xs, true) }

  lemma ElementsStart<T(!new)>(e: Encoder<T>, b: seq<T>, first: bool)
    requires PrefixFree(e) && b != []
    ensures Elements(e, b, first) != "" && Elements(e, b, first)[0] != ']'
  {
    assert StartsElement(e, b[0]);
  }

  lemma EmptyElements<T(!new)>(e: Encoder<T>, b: seq<T>, first: bool, x: string, y: string)
    requires PrefixFree(e) && "]" + x == Elements(e, b, first) + y
    ensures b == [] && x == y
  {
    assert ("]" + x)[0] == ']';
    if b != [] { ElementsStart(e, b, first); }
    Cancel("]", x, y);
  }

  lemma Cancel(s: string, x: string, y: string)
    ensures s + x == s + y ==> x == y
  {
    assert (s + x)[|s|..] == x && (s + y)[|s|..] == y;
  }

  function Separator(first: bool): string { if first then "" else "," }

  lemma ElementsUnfold<T>(e: Encoder<T>, a: seq<T>, first: bool, x: string)
    requires a != []
    ensures Elements(e, a, first) + x == Separator(first) + (e(a[0]) + (Elements(e, a[1..], false) + x))
  {
    var s, u, v := Separator(first), e(a[0]), Elements(e, a[1..], false);
    assert (s + u + v) + x == s + (u + (v + x));
  }

  lemma MoreElements<T(!new)>(e: Encoder<T>, a: seq<T>, b: seq<T>, first: bool, x: string, y: string)
    requires PrefixFree(e) && a != [] && b != [] && Elements(e, a, first) + x == Elements(e, b, first) + y
    ensures a[0] == b[0] && Elements(e, a[1..], false) + x == Elements(e, b[1..], false) + y
  {
    var u, v := Elements(e, a[1..], false) + x, Elements(e, b[1..], false) + y;
    ElementsUnfold(e, a, first, x);
    ElementsUnfold(e, b, first, y);
    Cancel(Separator(first), e(a[0]) + u, e(b[0]) + v);
    assert Delimits(e, a[0], b[0], u, v);
  }

  lemma {:induction false} ElementsPrefixFree<T(!new)>(e: Encoder<T>, a: seq<T>, b: seq<T>, first: bool, x: string,
                                                y: string)
    requires PrefixFree(e) && Elements(e, a, first) + x == Elements(e, b, first) + y
    ensures a == b && x == y
    decreases |a|
  {
    if a == [] {
      EmptyElements(e, b, first, x, y);
    } else if b == [] {
      EmptyElements(e, a, first, y, x);
    } else {
      MoreElements(e, a, b, first, x, y);
      ElementsPrefixFree(e, a[1..], b[1..], false, x, y);
      assert a == [a[0]] + a[1..] && b == [b[0]] + b[1..];
    }
  }

  // ---------- the request binding ----------

  /** What a site fixes about its paid requests. */
  datatype Profile = Profile(domain: string, origin: string, headers: seq<string>)

  /** A request; header names map to their values in order of occurrence. */
  datatype Request = Request(verb: string, url: string, headers: map<string, seq<string>>, body: string)

  function Occurrences(r: Request, name: string): seq<string> { if name in r.headers then r.headers[name] else [] }

  predicate Ascii(s: string) { forall i :: 0 <= i < |s| ==> s[i] < 128 as char }

  predicate Printable(s: string) { forall i :: 0 <= i < |s| ==> s[i] == '\t' || ' ' <= s[i] <= '~' }

  predicate AllPrintable(values: seq<string>) { forall v :: v in values ==> Printable(v) }

  predicate BoundPrintable(names: seq<string>, r: Request) {
    forall name :: name in names ==> AllPrintable(Occurrences(r, name))
  }

  predicate OwnUrl(p: Profile, url: string) { Ascii(url) && p.origin + "/" <= url && '#' !in url }

  predicate Bindable(p: Profile, r: Request) { OwnUrl(p, r.url) && BoundPrintable(p.headers, r) }

  function ValuesText(values: seq<string>): string { JsonArray(Quoted, values) }

  /** One entry of the `headers` array: a name and the digest of its values. */
  function EntryText(entry: (string, string)): string {
    "{\"name\":" + (Quoted(entry.0) + (",\"valueHash\":" + (Quoted(entry.1) + "}")))
  }

  function Entry(d: Digest, name: string, r: Request): (string, string) { (name, d(ValuesText(Occurrences(r, name)))) }

  function Entries(d: Digest, names: seq<string>, r: Request): (es: seq<(string, string)>)
    ensures |es| == |names| && forall i :: 0 <= i < |es| ==> es[i] == Entry(d, names[i], r)
  {
    if names == [] then [] else [Entry(d, names[0], r)] + Entries(d, names[1..], r)
  }

  /** The canonical binding object, keys in order. */
  function BindingText(bodyHash: string, domain: string, entries: seq<(string, string)>, verb: string,
                       url: string): string {
    "{\"bodyHash\":" + (Quoted(bodyHash)
    + (",\"domain\":" + (Quoted(domain)
    + (",\"headers\":[" + (Elements(EntryText, entries, true)
    + (",\"method\":" + (Quoted(verb) + (",\"url\":" + (Quoted(url) + "}")))))))))
  }

  function Binding(d: Digest, p: Profile, r: Request): string {
    BindingText(d(r.body), p.domain, Entries(d, p.headers, r), r.verb, r.url)
  }

  function RequestHash(d: Digest, p: Profile, r: Request): Option<string> {
    if Bindable(p, r) then Some(d(Binding(d, p, r))) else None
  }

  // ---------- equal hashes, equal requests ----------

  lemma QuotedDelimits(a: string, b: string, x: string, y: string)
    ensures Delimits(Quoted, a, b, x, y) && StartsElement(Quoted, a)
  {
    if Quoted(a) + x == Quoted(b) + y { QuotedIsPrefixFree(a, b, x, y); }
  }

  lemma QuotedPrefixFree()
    ensures PrefixFree(Quoted)
  {
    forall a, b, x, y ensures Delimits(Quoted, a, b, x, y) { QuotedDelimits(a, b, x, y); }
    forall a ensures StartsElement(Quoted, a) { QuotedDelimits(a, a, "", ""); }
  }

  /** A key and the literal behind it, then the rest. */
  lemma FieldsAgree(key: string, a: string, b: string, x: string, y: string)
    requires key + (Quoted(a) + x) == key + (Quoted(b) + y)
    ensures a == b && x == y
  {
    Cancel(key, Quoted(a) + x, Quoted(b) + y);
    QuotedIsPrefixFree(a, b, x, y);
  }

  lemma EntryFollowedBy(e: (string, string), x: string)
    ensures EntryText(e) + x == "{\"name\":" + (Quoted(e.0) + (",\"valueHash\":" + (Quoted(e.1) + ("}" + x))))
  {
    var k, l, p, q := "{\"name\":", ",\"valueHash\":", Quoted(e.0), Quoted(e.1);
    Associate(q, "}", x);
    Associate(l, q + "}", x);
    Associate(p, l + (q + "}"), x);
    Associate(k, p + (l + (q + "}")), x);
  }

  lemma EntryDelimits(a: (string, string), b: (string, string), x: string, y: string)
    ensures Delimits(EntryText, a, b, x, y) && StartsElement(EntryText, a)
  {
    if EntryText(a) + x == EntryText(b) + y {
      EntryFollowedBy(a, x);
      EntryFollowedBy(b, y);
      var l := ",\"valueHash\":";
      FieldsAgree("{\"name\":", a.0, b.0, l + (Quoted(a.1) + ("}" + x)), l + (Quoted(b.1) + ("}" + y)));
      FieldsAgree(l, a.1, b.1, "}" + x, "}" + y);
      Cancel("}", x, y);
    }
  }

  lemma EntryPrefixFree()
    ensures PrefixFree(EntryText)
  {
    forall a, b, x, y ensures Delimits(EntryText, a, b, x, y) { EntryDelimits(a, b, x, y); }
    forall a ensures StartsElement(EntryText, a) { EntryDelimits(a, a, "", ""); }
  }

  lemma ValuesTextInjective(a: seq<string>, b: seq<string>)
    requires ValuesText(a) == ValuesText(b)
    ensures a == b
  {
    var u, v := Elements(Quoted, a, true), Elements(Quoted, b, true);
    Cancel("[", u, v);
    QuotedPrefixFree();
    assert u + "" == v + "";
    ElementsPrefixFree(Quoted, a, b, true, "", "");
  }

  lemma BindingTextInjective(
    h: string, m: string, es: seq<(string, string)>, v: string, u: string,
    h': string, m': string, es': seq<(string, string)>, v': string, u': string)
    requires BindingText(h, m, es, v, u) == BindingText(h', m', es', v', u')
    ensures h == h' && m == m' && es == es' && v == v' && u == u'
  {
    var dom, hs, vs, us := ",\"domain\":", ",\"headers\":[", ",\"method\":", ",\"url\":";
    var url, url' := Quoted(u) + "}", Quoted(u') + "}";
    var verb, verb' := Quoted(v) + (us + url), Quoted(v') + (us + url');
    var list, list' := Elements(EntryText, es, true) + (vs + verb), Elements(EntryText, es', true) + (vs + verb');
    FieldsAgree("{\"bodyHash\":", h, h', dom + (Quoted(m) + (hs + list)), dom + (Quoted(m') + (hs + list')));
    FieldsAgree(dom, m, m', hs + list, hs + list');
    Cancel(hs, list, list');
    EntryPrefixFree();
    ElementsPrefixFree(EntryText, es, es', true, vs + verb, vs + verb');
    FieldsAgree(vs, v, v', us + url, us + url');
    FieldsAgree(us, u, u', "}", "}");
  }

  /** The texts that hashing a request digests. */
  ghost function Hashed(d: Digest, p: Profile, r: Request): set<string> {
    {r.body, Binding(d, p, r)} + set name | name in p.headers :: ValuesText(Occurrences(r, name))
  }

  ghost predicate SameBinding(p: Profile, r: Request, q: Profile, s: Request) {
    && p.domain == q.domain && p.headers == q.headers
    && r.verb == s.verb && r.url == s.url && r.body == s.body
    && forall name :: name in p.headers ==> Occurrences(r, name) == Occurrences(s, name)
  }

  lemma EntriesAgree(d: Digest, names: seq<string>, r: Request, s: Request, texts: set<string>)
    requires Entries(d, names, r) == Entries(d, names, s) && CollisionFree(d, texts)
    requires forall name :: name in names ==>
               ValuesText(Occurrences(r, name)) in texts && ValuesText(Occurrences(s, name)) in texts
    ensures forall name :: name in names ==> Occurrences(r, name) == Occurrences(s, name)
  {
    forall name | name in names ensures Occurrences(r, name) == Occurrences(s, name) {
      var i :| 0 <= i < |names| && names[i] == name;
      assert Entries(d, names, r)[i] == Entries(d, names, s)[i];
      ValuesTextInjective(Occurrences(r, name), Occurrences(s, name));
    }
  }

  lemma EntryNames(d: Digest, a: seq<string>, r: Request, b: seq<string>, s: Request)
    requires Entries(d, a, r) == Entries(d, b, s)
    ensures a == b
  {
    var x, y := Entries(d, a, r), Entries(d, b, s);
    forall i | 0 <= i < |a| ensures a[i] == b[i] { assert x[i] == y[i]; }
  }

  lemma SameBindingSameText(d: Digest, p: Profile, r: Request, q: Profile, s: Request)
    requires SameBinding(p, r, q, s)
    ensures Binding(d, p, r) == Binding(d, q, s)
  {
    var x, y := Entries(d, p.headers, r), Entries(d, q.headers, s);
    forall i | 0 <= i < |x| ensures x[i] == y[i] { assert p.headers[i] in p.headers; }
    assert x == y;
  }

  lemma SameTextSameBinding(d: Digest, p: Profile, r: Request, q: Profile, s: Request, texts: set<string>)
    requires CollisionFree(d, texts) && Hashed(d, p, r) <= texts && Hashed(d, q, s) <= texts
    requires Binding(d, p, r) == Binding(d, q, s)
    ensures SameBinding(p, r, q, s)
  {
    BindingTextInjective(d(r.body), p.domain, Entries(d, p.headers, r), r.verb, r.url,
                         d(s.body), q.domain, Entries(d, q.headers, s), s.verb, s.url);
    assert r.body in texts && s.body in texts;
    EntryNames(d, p.headers, r, q.headers, s);
    forall name | name in p.headers
      ensures ValuesText(Occurrences(r, name)) in texts && ValuesText(Occurrences(s, name)) in texts
    {
      assert ValuesText(Occurrences(r, name)) in Hashed(d, p, r) && ValuesText(Occurrences(s, name)) in Hashed(d, q, s);
    }
    EntriesAgree(d, p.headers, r, s, texts);
  }

  /** Two requests have one hash exactly when they agree on the method, the URL,
      the body and the ordered occurrences of every bound header. */
  lemma EqualHashesBindEqualRequests(d: Digest, p: Profile, r: Request, q: Profile, s: Request)
    requires Bindable(p, r) && Bindable(q, s) && CollisionFree(d, Hashed(d, p, r) + Hashed(d, q, s))
    ensures RequestHash(d, p, r) == RequestHash(d, q, s) <==> SameBinding(p, r, q, s)
  {
    var texts := Hashed(d, p, r) + Hashed(d, q, s);
    if RequestHash(d, p, r) == RequestHash(d, q, s) {
      assert Binding(d, p, r) in texts && Binding(d, q, s) in texts;
      SameTextSameBinding(d, p, r, q, s, texts);
    }
    if SameBinding(p, r, q, s) { SameBindingSameText(d, p, r, q, s); }
  }

  // ---------- the loops of `request_hash` ----------

  method CheckValues(values: seq<string>) returns (ok: bool)
    ensures ok <==> AllPrintable(values)
  {
    var i := 0;
    while i < |values|
      invariant 0 <= i <= |values|
      invariant forall j :: 0 <= j < i ==> Printable(values[j])
    {
      if !Printable(values[i]) { return false; }
      i := i + 1;
    }
    return true;
  }

  lemma EntriesAre(d: Digest, names: seq<string>, r: Request, entries: seq<(string, string)>)
    requires |entries| == |names| && forall j :: 0 <= j < |names| ==> entries[j] == Entry(d, names[j], r)
    ensures entries == Entries(d, names, r)
  {}

  /** The entries of the first names, all of them with printable values. */
  predicate Bound(d: Digest, names: seq<string>, r: Request, entries: seq<(string, string)>) {
    && |entries| <= |names|
    && forall j :: 0 <= j < |entries| ==> entries[j] == Entry(d, names[j], r) && AllPrintable(Occurrences(r, names[j]))
  }

  lemma BoundMore(d: Digest, names: seq<string>, r: Request, entries: seq<(string, string)>)
    requires Bound(d, names, r, entries) && |entries| < |names| && AllPrintable(Occurrences(r, names[|entries|]))
    ensures Bound(d, names, r, entries + [Entry(d, names[|entries|], r)])
  {}

  lemma BoundAll(d: Digest, names: seq<string>, r: Request, entries: seq<(string, string)>)
    requires Bound(d, names, r, entries) && |entries| == |names|
    ensures BoundPrintable(names, r) && entries == Entries(d, names, r)
  {
    EntriesAre(d, names, r, entries);
  }

  lemma Unbound(names: seq<string>, r: Request, i: nat)
    requires i < |names| && !AllPrintable(Occurrences(r, names[i]))
    ensures !BoundPrintable(names, r)
  {
    assert names[i] in names;
  }

  method BindHeaders(d: Digest, names: seq<string>, r: Request) returns (bound: Option<seq<(string, string)>>)
    ensures bound == if BoundPrintable(names, r) then Some(Entries(d, names, r)) else None
  {
    var entries: seq<(string, string)> := [];
    while |entries| < |names|
      invariant Bound(d, names, r, entries)
      decreases |names| - |entries|
    {
      var name := names[|entries|];
      var ok := CheckValues(Occurrences(r, name));
      if !ok { Unbound(names, r, |entries|); return None; }
      BoundMore(d, names, r, entries);
      entries := entries + [Entry(d, name, r)];
    }
    BoundAll(d, names, r, entries);
    return Some(entries);
  }

  /** `request_hash`. */
  method ComputeRequestHash(d: Digest, p: Profile, r: Request) returns (hash: Option<string>)
    ensures hash == RequestHash(d, p, r)
  {
    if !OwnUrl(p, r.url) { return None; }
    var bound := BindHeaders(d, p.headers, r);
    if bound.None? { return None; }
    hash := Some(d(BindingText(d(r.body), p.domain, bound.value, r.verb, r.url)));
  }
}
