/** L402 credentials: the caveat and HMAC chain checked by `verify`, the
    credential issued by `mint_l402`, and what a client may do by attenuation.
    HMAC and SHA-256 are arbitrary functions; byte strings are written as `string`. */
module L402 {
  import opened DecimalText

  type Hmac = (string, string) -> string

  const U64_MAX: nat := 0xFFFF_FFFF_FFFF_FFFF

  const SERVICES := "services=geata:0"
  const REQUEST := "geata_request="
  const TERMS := "geata_terms="
  const UNTIL := "geata_valid_until="
  const PREIMAGE := "preimage="

  datatype Macaroon = Macaroon(identifier: string, caveats: seq<string>, signature: string)

  /** What the gateway compares a credential with: the hash of the request being
      made, the digest of the site's current terms, and the presented preimage in hex. */
  datatype Presented = Presented(request: string, terms: string, preimage: string)

  // ---------- caveat texts ----------

  function StripPrefix(text: string, prefix: string): (r: string)
    requires prefix <= text
    ensures text == prefix + r
  {
    text[|prefix|..]
  }

  /** The deadline carried by an expiry caveat whose number is a valid u64. */
  predicate IsExpiry(text: string) {
    UNTIL <= text && var v := StripPrefix(text, UNTIL);
    v != "" && AllDigits(v) && ParseNat(v) <= U64_MAX
  }

  function ExpiryOf(text: string): nat
    requires IsExpiry(text)
  {
    ParseNat(StripPrefix(text, UNTIL))
  }

  function ToLower(s: string): string {
    seq(|s|, i requires 0 <= i < |s| => if 'A' <= s[i] <= 'Z' then s[i] - 'A' + 'a' else s[i])
  }

  predicate IsPreimage(text: string, preimage: string) {
    PREIMAGE <= text && ToLower(StripPrefix(text, PREIMAGE)) == preimage
  }

  lemma PrefixesDiffer(a: string, b: string, text: string, i: nat)
    requires i < |a| && i < |b| && a[i] != b[i]
    requires a <= text
    ensures !(b <= text)
  {
    assert text[i] == a[i];
  }

  /** An expiry caveat is none of the three fixed restrictions. */
  lemma KindsDisjoint(p: Presented, text: string)
    ensures text == SERVICES ==> !(UNTIL <= text) && !(PREIMAGE <= text)
    ensures text == REQUEST + p.request ==> text != SERVICES && !(UNTIL <= text) && !(PREIMAGE <= text)
    ensures text == TERMS + p.terms ==> text != SERVICES && !(UNTIL <= text) && !(PREIMAGE <= text)
    ensures text == REQUEST + p.request ==> text != TERMS + p.terms
    ensures UNTIL <= text ==> !(PREIMAGE <= text)
  {
    if text == SERVICES { PrefixesDiffer(SERVICES, UNTIL, text, 0); PrefixesDiffer(SERVICES, PREIMAGE, text, 0); }
    if REQUEST <= text {
      PrefixesDiffer(REQUEST, UNTIL, text, 6);
      PrefixesDiffer(REQUEST, PREIMAGE, text, 0);
      PrefixesDiffer(REQUEST, TERMS, text, 6);
      PrefixesDiffer(REQUEST, SERVICES, text, 0);
    }
    if TERMS <= text {
      PrefixesDiffer(TERMS, UNTIL, text, 6);
      PrefixesDiffer(TERMS, PREIMAGE, text, 0);
      PrefixesDiffer(TERMS, SERVICES, text, 0);
    }
    if UNTIL <= text { PrefixesDiffer(UNTIL, PREIMAGE, text, 0); }
  }

  // ---------- declarative meaning of a credential ----------

  function Chain(h: Hmac, key: string, caveats: seq<string>): string
    decreases |caveats|
  {
    if caveats == [] then key
    else h(Chain(h, key, caveats[..|caveats| - 1]), caveats[|caveats| - 1])
  }

  predicate Allowed(p: Presented, text: string) {
    || text == SERVICES
    || text == REQUEST + p.request
    || text == TERMS + p.terms
    || IsExpiry(text)
    || IsPreimage(text, p.preimage)
  }

  /** The deadline in force after a list of caveats, starting from the stored one. */
  function Deadline(validBefore: nat, caveats: seq<string>): nat
    decreases |caveats|
  {
    if caveats == [] then validBefore
    else
      var last := caveats[|caveats| - 1];
      if IsExpiry(last) then ExpiryOf(last) else Deadline(validBefore, caveats[..|caveats| - 1])
  }

  /** Every expiry caveat restricts the deadline left by the caveats before it. */
  predicate Narrowing(validBefore: nat, caveats: seq<string>) {
    forall i {:trigger caveats[i]} :: 0 <= i < |caveats| && IsExpiry(caveats[i]) ==>
      ExpiryOf(caveats[i]) <= Deadline(validBefore, caveats[..i])
  }

  predicate Complete(p: Presented, caveats: seq<string>) {
    && SERVICES in caveats
    && REQUEST + p.request in caveats
    && TERMS + p.terms in caveats
    && exists c :: c in caveats && IsExpiry(c)
  }

  predicate Restrictions(p: Presented, validBefore: nat, caveats: seq<string>) {
    && (forall c :: c in caveats ==> Allowed(p, c))
    && Narrowing(validBefore, caveats)
  }

  /** A credential is good at `time` for what is presented. */
  predicate Authorized(h: Hmac, p: Presented, m: Macaroon, root: string, validBefore: nat, time: nat) {
    && Restrictions(p, validBefore, m.caveats)
    && Complete(p, m.caveats)
    && m.signature == Chain(h, h(root, m.identifier), m.caveats)
    && time < Deadline(validBefore, m.caveats)
  }

  // ---------- facts about deadlines ----------

  lemma {:induction false} DeadlineOnlyNarrows(validBefore: nat, caveats: seq<string>, k: nat)
    requires k <= |caveats| && Narrowing(validBefore, caveats)
    ensures Deadline(validBefore, caveats) <= Deadline(validBefore, caveats[..k]) <= validBefore
    decreases |caveats|
  {
    if k == |caveats| {
      assert caveats[..k] == caveats;
      if k > 0 {
        NarrowingPrefix(validBefore, caveats, k - 1);
        assert caveats[..k - 1][..k - 1] == caveats[..k - 1];
        DeadlineOnlyNarrows(validBefore, caveats[..k - 1], k - 1);
        assert IsExpiry(caveats[k - 1]) ==> ExpiryOf(caveats[k - 1]) <= Deadline(validBefore, caveats[..k - 1]);
      }
    } else {
      var n := |caveats| - 1;
      NarrowingPrefix(validBefore, caveats, n);
      assert caveats[..n][..k] == caveats[..k];
      DeadlineOnlyNarrows(validBefore, caveats[..n], k);
      assert IsExpiry(caveats[n]) ==> ExpiryOf(caveats[n]) <= Deadline(validBefore, caveats[..n]);
    }
  }

  lemma NarrowingPrefix(validBefore: nat, caveats: seq<string>, k: nat)
    requires k <= |caveats| && Narrowing(validBefore, caveats)
    ensures Narrowing(validBefore, caveats[..k])
  {
    forall i | 0 <= i < k && IsExpiry(caveats[..k][i])
      ensures ExpiryOf(caveats[..k][i]) <= Deadline(validBefore, caveats[..k][..i])
    {
      assert caveats[..k][..i] == caveats[..i];
      assert caveats[..k][i] == caveats[i];
    }
  }

  lemma NarrowingSnoc(validBefore: nat, caveats: seq<string>, c: string)
    ensures Narrowing(validBefore, caveats + [c]) <==>
            Narrowing(validBefore, caveats) && (IsExpiry(c) ==> ExpiryOf(c) <= Deadline(validBefore, caveats))
  {
    var all := caveats + [c];
    assert all[..|caveats|] == caveats;
    if Narrowing(validBefore, all) {
      NarrowingPrefix(validBefore, all, |caveats|);
      assert all[|caveats|] == c;
    }
    if Narrowing(validBefore, caveats) && (IsExpiry(c) ==> ExpiryOf(c) <= Deadline(validBefore, caveats)) {
      forall i | 0 <= i < |all| && IsExpiry(all[i])
        ensures ExpiryOf(all[i]) <= Deadline(validBefore, all[..i])
      {
        if i < |caveats| {
          assert all[..i] == caveats[..i] && all[i] == caveats[i];
        }
      }
    }
  }

  // ---------- the verification loop ----------

  /** `verify`: one pass over the caveats, extending the HMAC chain, then one
      comparison with the signature. */
  method Verify(h: Hmac, p: Presented, m: Macaroon, root: string, validBefore: nat, time: nat) returns (ok: bool)
    ensures ok <==> Authorized(h, p, m, root, validBefore, time)
  {
    if time >= validBefore {
      if Restrictions(p, validBefore, m.caveats) { DeadlineOnlyNarrows(validBefore, m.caveats, 0); }
      return false;
    }
    var walk := WalkCaveats(h, p, m, root, validBefore, time);
    return !walk.Stopped? && walk.services && walk.request && walk.terms && walk.until && walk.signature == m.signature;
  }

  /** The locals of the loop: the restrictions met, the deadline and the chain. */
  datatype Walk = Stopped | Walk(services: bool, request: bool, terms: bool, until: bool, expiry: nat,
                                 signature: string)

  /** `w` sums up the caveats read so far, all of them acceptable. */
  ghost predicate SumsUp(w: Walk, h: Hmac, key: string, p: Presented, validBefore: nat, time: nat,
                         caveats: seq<string>) {
    && w.Walk?
    && Restrictions(p, validBefore, caveats)
    && w.expiry == Deadline(validBefore, caveats) && time < w.expiry
    && w.signature == Chain(h, key, caveats)
    && (w.services <==> SERVICES in caveats)
    && (w.request <==> REQUEST + p.request in caveats)
    && (w.terms <==> TERMS + p.terms in caveats)
    && (w.until <==> exists c :: c in caveats && IsExpiry(c))
  }

  method WalkCaveats(h: Hmac, p: Presented, m: Macaroon, root: string, validBefore: nat, time: nat) returns (w: Walk)
    requires time < validBefore
    ensures w.Stopped? ==> !Authorized(h, p, m, root, validBefore, time)
    ensures !w.Stopped? ==> SumsUp(w, h, h(root, m.identifier), p, validBefore, time, m.caveats)
  {
    w := Walk(false, false, false, false, validBefore, h(root, m.identifier));
    ghost var key := w.signature;
    var i := 0;
    while i < |m.caveats|
      invariant 0 <= i <= |m.caveats|
      invariant SumsUp(w, h, key, p, validBefore, time, m.caveats[..i])
    {
      w := NextCaveat(w, h, key, p, validBefore, time, m.caveats, i);
      if w.Stopped? {
        RejectedCaveat(h, p, m, root, validBefore, time, i);
        return;
      }
      i := i + 1;
    }
    assert m.caveats[..i] == m.caveats;
  }

  /** Why a caveat stops the walk. */
  predicate Rejects(p: Presented, text: string, expiry: nat, time: nat) {
    !Allowed(p, text) || (IsExpiry(text) && (ExpiryOf(text) > expiry || time >= ExpiryOf(text)))
  }

  method NextCaveat(w: Walk, h: Hmac, ghost key: string, p: Presented, ghost validBefore: nat, time: nat,
                    caveats: seq<string>, i: nat)
    returns (next: Walk)
    requires i < |caveats| && SumsUp(w, h, key, p, validBefore, time, caveats[..i])
    ensures next.Stopped? ==> Rejects(p, caveats[i], Deadline(validBefore, caveats[..i]), time)
    ensures !next.Stopped? ==> SumsUp(next, h, key, p, validBefore, time, caveats[..i + 1])
  {
    var text := caveats[i];
    var mark := Classify(p, text, w.expiry, time);
    if mark.Rejected? { return Stopped; }
    AcceptedCaveat(h, key, p, validBefore, caveats[..i], text);
    assert caveats[..i + 1] == caveats[..i] + [text];
    next := Walk(w.services || mark.Services?, w.request || mark.Request?, w.terms || mark.Terms?,
                 w.until || mark.Until?,
                 if mark.Until? then mark.next else w.expiry, h(w.signature, text));
  }

  /** How an allowed caveat extends the chain, the deadline and the restrictions. */
  lemma AcceptedCaveat(h: Hmac, key: string, p: Presented, validBefore: nat, caveats: seq<string>, c: string)
    requires Restrictions(p, validBefore, caveats) && Allowed(p, c) &&
             (IsExpiry(c) ==> ExpiryOf(c) <= Deadline(validBefore, caveats))
    ensures Restrictions(p, validBefore, caveats + [c])
    ensures Chain(h, key, caveats + [c]) == h(Chain(h, key, caveats), c)
    ensures Deadline(validBefore, caveats + [c]) == if IsExpiry(c) then ExpiryOf(c) else Deadline(validBefore, caveats)
  {
    assert (caveats + [c])[..|caveats|] == caveats;
    NarrowingSnoc(validBefore, caveats, c);
  }

  datatype Mark = Services | Request | Terms | Until(next: nat) | Preimage | Rejected

  /** What one caveat is, given the deadline in force before it. */
  method Classify(p: Presented, text: string, expiry: nat, time: nat) returns (mark: Mark)
    ensures mark.Rejected? <==> Rejects(p, text, expiry, time)
    ensures !mark.Rejected? ==>
              && (mark.Services? <==> text == SERVICES)
              && (mark.Request? <==> text == REQUEST + p.request)
              && (mark.Terms? <==> text == TERMS + p.terms)
              && (mark.Until? <==> IsExpiry(text))
    ensures mark.Until? ==> mark.next == ExpiryOf(text)
  {
    KindsDisjoint(p, text);
    if text == SERVICES { return Services; }
    if text == REQUEST + p.request { return Request; }
    if text == TERMS + p.terms { return Terms; }
    if UNTIL <= text {
      var next, valid := ParseExpiry(text);
      return if !valid || next > expiry || time >= next then Rejected else Until(next);
    }
    return if PREIMAGE <= text && ToLower(text[|PREIMAGE|..]) == p.preimage then Preimage else Rejected;
  }

  /** `value.parse::<u64>()` after the digit check. */
  method ParseExpiry(text: string) returns (next: nat, valid: bool)
    requires UNTIL <= text
    ensures valid <==> IsExpiry(text)
    ensures valid ==> next == ExpiryOf(text)
  {
    var v := StripPrefix(text, UNTIL);
    next, valid := 0, v != "";
    var i := 0;
    while i < |v| && valid
      invariant 0 <= i <= |v|
      invariant valid <==> v != "" && forall j :: 0 <= j < i ==> IsDigit(v[j])
      invariant valid ==> next == ParseNat(v[..i])
    {
      if IsDigit(v[i]) {
        next := next * 10 + (v[i] as int - '0' as int);
        assert v[..i + 1][..i] == v[..i];
      } else {
        valid := false;
      }
      i := i + 1;
    }
    assert v[..|v|] == v;
    if valid && next > U64_MAX { valid := false; }
  }

  /** A caveat that is not allowed, widens the deadline, or has passed already
      rules the whole credential out, whatever follows it. */
  lemma RejectedCaveat(h: Hmac, p: Presented, m: Macaroon, root: string, validBefore: nat, time: nat, i: nat)
    requires i < |m.caveats| && Rejects(p, m.caveats[i], Deadline(validBefore, m.caveats[..i]), time)
    ensures !Authorized(h, p, m, root, validBefore, time)
  {
    if Authorized(h, p, m, root, validBefore, time) {
      assert m.caveats[i] in m.caveats;
      assert m.caveats[..i + 1][..i] == m.caveats[..i];
      DeadlineOnlyNarrows(validBefore, m.caveats, i + 1);
    }
  }

  // ---------- issuing ----------

  /** The credential `mint_l402` hands out. */
  function Minted(h: Hmac, identifier: string, root: string, request: string, terms: string,
                  validBefore: nat): Macaroon {
    var caveats := [SERVICES, REQUEST + request, TERMS + terms, UNTIL + Decimal(validBefore)];
    Macaroon(identifier, caveats, h(h(h(h(h(root, identifier), caveats[0]), caveats[1]), caveats[2]), caveats[3]))
  }

  lemma UntilCaveat(n: nat)
    requires n <= U64_MAX
    ensures IsExpiry(UNTIL + Decimal(n)) && ExpiryOf(UNTIL + Decimal(n)) == n
  {
    assert StripPrefix(UNTIL + Decimal(n), UNTIL) == Decimal(n);
  }

  lemma ChainSnoc(h: Hmac, key: string, caveats: seq<string>, c: string)
    ensures Chain(h, key, caveats + [c]) == h(Chain(h, key, caveats), c)
  {
    assert (caveats + [c])[..|caveats|] == caveats;
  }

  lemma DeadlineSnoc(validBefore: nat, caveats: seq<string>, c: string)
    ensures Deadline(validBefore, caveats + [c]) == if IsExpiry(c) then ExpiryOf(c) else Deadline(validBefore, caveats)
  {
    assert (caveats + [c])[..|caveats|] == caveats;
  }

  lemma MintedShape(h: Hmac, id: string, root: string, request: string, terms: string, validBefore: nat)
    requires validBefore <= U64_MAX
    ensures var m := Minted(h, id, root, request, terms, validBefore);
            && m.signature == Chain(h, h(root, id), m.caveats)
            && Deadline(validBefore, m.caveats) == validBefore
            && Narrowing(validBefore, m.caveats)
  {
    var p := Presented(request, terms, "");
    var a, b, c, d := SERVICES, REQUEST + request, TERMS + terms, UNTIL + Decimal(validBefore);
    KindsDisjoint(p, a);
    KindsDisjoint(p, b);
    KindsDisjoint(p, c);
    UntilCaveat(validBefore);
    var empty: seq<string> := [];
    var key := h(root, id);
    assert empty + [a] == [a] && [a] + [b] == [a, b] && [a, b] + [c] == [a, b, c] && [a, b, c] + [d] == [a, b, c, d];
    ChainSnoc(h, key, [], a);
    ChainSnoc(h, key, [a], b);
    ChainSnoc(h, key, [a, b], c);
    ChainSnoc(h, key, [a, b, c], d);
    DeadlineSnoc(validBefore, [], a);
    DeadlineSnoc(validBefore, [a], b);
    DeadlineSnoc(validBefore, [a, b], c);
    DeadlineSnoc(validBefore, [a, b, c], d);
    NarrowingSnoc(validBefore, [], a);
    NarrowingSnoc(validBefore, [a], b);
    NarrowingSnoc(validBefore, [a, b], c);
    NarrowingSnoc(validBefore, [a, b, c], d);
  }

  /** An issued credential is good exactly for its own request and terms, and
      exactly until its deadline. */
  lemma MintedAuthorizesExactly(h: Hmac, id: string, root: string, request: string, terms: string, validBefore: nat,
                                p: Presented, time: nat)
    requires validBefore <= U64_MAX
    ensures Authorized(h, p, Minted(h, id, root, request, terms, validBefore), root, validBefore, time) <==>
            p.request == request && p.terms == terms && time < validBefore
  {
    var m := Minted(h, id, root, request, terms, validBefore);
    MintedShape(h, id, root, request, terms, validBefore);
    UntilCaveat(validBefore);
    assert IsExpiry(m.caveats[3]) && m.caveats[3] in m.caveats;
    if Restrictions(p, validBefore, m.caveats) { OwnTermsOnly(h, id, root, request, terms, validBefore, p); }
  }

  lemma OwnTermsOnly(h: Hmac, id: string, root: string, request: string, terms: string, validBefore: nat, p: Presented)
    requires forall c :: c in Minted(h, id, root, request, terms, validBefore).caveats ==> Allowed(p, c)
    ensures p.request == request && p.terms == terms
  {
    var m := Minted(h, id, root, request, terms, validBefore);
    var own := Presented(request, terms, p.preimage);
    assert Allowed(p, m.caveats[1]) && Allowed(p, m.caveats[2]);
    KindsDisjoint(own, m.caveats[1]);
    KindsDisjoint(own, m.caveats[2]);
    KindsDisjoint(p, m.caveats[1]);
    KindsDisjoint(p, m.caveats[2]);
    SameTail(REQUEST, request, p.request);
    SameTail(TERMS, terms, p.terms);
    PrefixesDiffer(REQUEST, TERMS, m.caveats[1], 6);
    PrefixesDiffer(TERMS, REQUEST, m.caveats[2], 6);
  }

  lemma SameTail(prefix: string, a: string, b: string)
    ensures prefix + a == prefix + b ==> a == b
  {
    if prefix + a == prefix + b {
      assert (prefix + a)[|prefix|..] == a && (prefix + b)[|prefix|..] == b;
    }
  }

  // ---------- attenuation ----------

  /** What a holder can make of a credential without the root key. */
  function Attenuate(h: Hmac, m: Macaroon, extra: seq<string>): Macaroon {
    Macaroon(m.identifier, m.caveats + extra, Chain(h, m.signature, extra))
  }

  lemma {:induction false} ChainSplit(h: Hmac, key: string, a: seq<string>, b: seq<string>)
    ensures Chain(h, key, a + b) == Chain(h, Chain(h, key, a), b)
    decreases |b|
  {
    if b == [] {
      assert a + b == a;
    } else {
      var n := |b| - 1;
      assert a + b == (a + b[..n]) + [b[n]] && b == b[..n] + [b[n]];
      ChainSplit(h, key, a, b[..n]);
      ChainSnoc(h, key, a + b[..n], b[n]);
    }
  }

  /** If any attenuation of a genuine credential is accepted, the original is
      accepted too, exactly when the original already names all four restrictions. */
  lemma AttenuationOnlyRestricts(h: Hmac, p: Presented, m: Macaroon, extra: seq<string>, root: string, validBefore: nat,
                                 time: nat)
    requires m.signature == Chain(h, h(root, m.identifier), m.caveats)
    requires Authorized(h, p, Attenuate(h, m, extra), root, validBefore, time)
    ensures Authorized(h, p, m, root, validBefore, time) <==> Complete(p, m.caveats)
  {
    var all := m.caveats + extra;
    assert all[..|m.caveats|] == m.caveats;
    NarrowingPrefix(validBefore, all, |m.caveats|);
    DeadlineOnlyNarrows(validBefore, all, |m.caveats|);
    forall c | c in m.caveats ensures Allowed(p, c) { assert c in all; }
  }

  /** A credential without the required restrictions can be completed by its
      holder: the guard on completeness above is needed. */
  lemma IncompleteOriginal(h: Hmac)
    ensures var p := Presented("r", "t", "x");
            var bare := Macaroon("id", [], h("root", "id"));
            var extra := [SERVICES, REQUEST + "r", TERMS + "t", UNTIL + Decimal(9)];
            && Authorized(h, p, Attenuate(h, bare, extra), "root", 9, 8)
            && !Authorized(h, p, bare, "root", 9, 8)
  {
    var bare := Macaroon("id", [], h("root", "id"));
    var extra := [SERVICES, REQUEST + "r", TERMS + "t", UNTIL + Decimal(9)];
    MintedAuthorizesExactly(h, "id", "root", "r", "t", 9, Presented("r", "t", "x"), 8);
    MintedShape(h, "id", "root", "r", "t", 9);
    assert bare.caveats + extra == extra;
    assert Attenuate(h, bare, extra) == Minted(h, "id", "root", "r", "t", 9);
  }

  /** Adding one expiry caveat gives exactly the instants before the new
      deadline out of those the original accepts, and refuses to widen it. */
  lemma AddedExpiryShrinksWindow(h: Hmac, p: Presented, m: Macaroon, n: nat, root: string, validBefore: nat, time: nat)
    requires n <= U64_MAX && Complete(p, m.caveats)
    requires m.signature == Chain(h, h(root, m.identifier), m.caveats)
    ensures Authorized(h, p, Attenuate(h, m, [UNTIL + Decimal(n)]), root, validBefore, time) <==>
            && Authorized(h, p, m, root, validBefore, time)
            && time < n <= Deadline(validBefore, m.caveats)
  {
    var c := UNTIL + Decimal(n);
    var all := m.caveats + [c];
    UntilCaveat(n);
    NarrowingSnoc(validBefore, m.caveats, c);
    DeadlineSnoc(validBefore, m.caveats, c);
    ChainSplit(h, h(root, m.identifier), m.caveats, [c]);
    assert c in all;
    forall x | x in m.caveats ensures x in all {}
    if Restrictions(p, validBefore, all) {
      forall x | x in m.caveats ensures Allowed(p, x) { assert x in all; }
    }
  }

  /** Time alone can only take a credential away. */
  lemma NeverBecomesValid(h: Hmac, p: Presented, m: Macaroon, root: string, validBefore: nat, early: nat, late: nat)
    requires early <= late
    ensures Authorized(h, p, m, root, validBefore, late) ==>
            Authorized(h, p, m, root, validBefore, early) && late < validBefore
  {
    if Authorized(h, p, m, root, validBefore, late) { DeadlineOnlyNarrows(validBefore, m.caveats, 0); }
  }

  lemma MintedIsComplete(h: Hmac, id: string, root: string, request: string, terms: string, validBefore: nat,
                         p: Presented)
    requires validBefore <= U64_MAX &&
             Restrictions(p, validBefore, Minted(h, id, root, request, terms, validBefore).caveats)
    ensures p.request == request && p.terms == terms &&
            Complete(p, Minted(h, id, root, request, terms, validBefore).caveats)
  {
    OwnTermsOnly(h, id, root, request, terms, validBefore, p);
    UntilCaveat(validBefore);
    var caveats := Minted(h, id, root, request, terms, validBefore).caveats;
    assert IsExpiry(caveats[3]) && caveats[3] in caveats;
  }

  /** No attenuation of an issued credential is accepted where the issued one is not. */
  lemma MintedAttenuationOnlyRestricts(h: Hmac, id: string, root: string, request: string, terms: string,
                                       validBefore: nat, extra: seq<string>, p: Presented, time: nat)
    requires validBefore <= U64_MAX
    requires Authorized(h, p, Attenuate(h, Minted(h, id, root, request, terms, validBefore), extra), root, validBefore,
                        time)
    ensures Authorized(h, p, Minted(h, id, root, request, terms, validBefore), root, validBefore, time)
    ensures p.request == request && p.terms == terms && time < validBefore
  {
    var m := Minted(h, id, root, request, terms, validBefore);
    MintedShape(h, id, root, request, terms, validBefore);
    RestrictionsPrefix(p, validBefore, m.caveats, extra);
    MintedIsComplete(h, id, root, request, terms, validBefore, p);
    AttenuationOnlyRestricts(h, p, m, extra, root, validBefore, time);
    MintedAuthorizesExactly(h, id, root, request, terms, validBefore, p, time);
  }

  lemma RestrictionsPrefix(p: Presented, validBefore: nat, caveats: seq<string>, extra: seq<string>)
    requires Restrictions(p, validBefore, caveats + extra)
    ensures Restrictions(p, validBefore, caveats)
  {
    var all := caveats + extra;
    assert all[..|caveats|] == caveats;
    NarrowingPrefix(validBefore, all, |caveats|);
    forall c | c in caveats ensures Allowed(p, c) { assert c in all; }
  }

  // ---------- preimages ----------

  lemma PreimageCaveatKind(p: Presented, x: string)
    ensures var c := PREIMAGE + x;
            && c != SERVICES && c != REQUEST + p.request && c != TERMS + p.terms && !IsExpiry(c)
            && (Allowed(p, c) <==> ToLower(x) == p.preimage)
  {
    var c := PREIMAGE + x;
    KindsDisjoint(p, c);
    assert StripPrefix(c, PREIMAGE) == x;
  }

  /** A preimage caveat leaves a credential as good as it was for its preimage,
      and good for no other. */
  lemma PreimageCaveatBinds(h: Hmac, p: Presented, m: Macaroon, x: string, root: string, validBefore: nat, time: nat)
    requires m.signature == Chain(h, h(root, m.identifier), m.caveats)
    ensures Authorized(h, p, Attenuate(h, m, [PREIMAGE + x]), root, validBefore, time) <==>
            Authorized(h, p, m, root, validBefore, time) && ToLower(x) == p.preimage
  {
    var c := PREIMAGE + x;
    var all := m.caveats + [c];
    PreimageCaveatKind(p, x);
    NarrowingSnoc(validBefore, m.caveats, c);
    DeadlineSnoc(validBefore, m.caveats, c);
    ChainSplit(h, h(root, m.identifier), m.caveats, [c]);
    assert c in all && forall x :: x in m.caveats ==> x in all;
    assert forall x :: x in all ==> x in m.caveats || x == c;
  }

  type Sha = string -> string

  /** Two zero bytes, the payment hash and a random nonce. */
  function IdentifierOf(hash: string, nonce: string): string { [0 as char, 0 as char] + hash + nonce }

  /** The proof part of `parse_credential`: a well-formed identifier, at most 32
      caveats, and a preimage of the payment hash in the identifier. */
  predicate Presentable(sha: Sha, preimage: string, m: Macaroon) {
    && |m.identifier| == 66 && m.identifier[..2] == [0 as char, 0 as char] && |m.caveats| <= 32
    && sha(preimage) == m.identifier[2..34]
  }

  lemma IdentifierCarriesHash(hash: string, nonce: string)
    requires |hash| == 32 && |nonce| == 32
    ensures var id := IdentifierOf(hash, nonce); |id| == 66 && id[..2] == [0 as char, 0 as char] && id[2..34] == hash
  {}

  /** An issued credential, as it is or with a preimage caveat, is accepted exactly
      for its own request and terms, before its deadline and with the preimage that
      was paid for, if `paid` and the presented preimage do not collide. */
  lemma MintedNeedsItsPreimage(sha: Sha, h: Hmac, paid: string, nonce: string, root: string, request: string,
                               terms: string, validBefore: nat, p: Presented, x: string, time: nat)
    requires validBefore <= U64_MAX && |sha(paid)| == 32 && |nonce| == 32
    requires sha(paid) == sha(p.preimage) ==> paid == p.preimage
    ensures var m := Minted(h, IdentifierOf(sha(paid), nonce), root, request, terms, validBefore);
            var bound := Attenuate(h, m, [PREIMAGE + x]);
            && (Presentable(sha, p.preimage, m) && Authorized(h, p, m, root, validBefore, time) <==>
                p == Presented(request, terms, paid) && time < validBefore)
            && (Presentable(sha, p.preimage, bound) && Authorized(h, p, bound, root, validBefore, time) <==>
                p == Presented(request, terms, paid) && time < validBefore && ToLower(x) == paid)
  {
    var id := IdentifierOf(sha(paid), nonce);
    IdentifierCarriesHash(sha(paid), nonce);
    MintedAuthorizesExactly(h, id, root, request, terms, validBefore, p, time);
    MintedShape(h, id, root, request, terms, validBefore);
    PreimageCaveatBinds(h, p, Minted(h, id, root, request, terms, validBefore), x, root, validBefore, time);
  }
}
