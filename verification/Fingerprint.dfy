/** The request identity CreateJob compares: requestFingerprint in pkg/work/sqlite/store.go. */
module Fingerprint {
  import opened Text

  /** work.JobRequest. */
  datatype Request = Request(
    artifactKind: string,
    imageRepository: string,
    imageDigest: string,
    stableRef: string,
    toolName: string,
    version: string,
    casHash: string,
    actions: seq<string>,
    fixtureSet: string,
    validationRequestId: string)

  const NUL: char := '\0'

  predicate NulFree(s: string) {
    NUL !in s
  }

  /** The hashed fields in hashing order. */
  function Fields(r: Request): seq<string> {
    [r.artifactKind, r.imageRepository, r.imageDigest, r.stableRef, r.toolName, r.version, r.casHash]
    + SortStrings(r.actions) + [r.fixtureSet]
  }

  predicate NulFreeRequest(r: Request) {
    forall f :: f in Fields(r) ==> NulFree(f)
  }

  /** The bytes fed to the hash: every field followed by one separator. */
  function Join(fields: seq<string>): string {
    if fields == [] then [] else fields[0] + [NUL] + Join(fields[1..])
  }

  /** SHA-256 is taken to be injective, so a fingerprint is identified with its preimage. */
  function FingerprintOf(r: Request): string {
    Join(Fields(r))
  }

  /** Equal in every identity-relevant field, the actions read as a set with multiplicity. */
  ghost predicate SameRequest(r: Request, q: Request) {
    && r.artifactKind == q.artifactKind && r.imageRepository == q.imageRepository
    && r.imageDigest == q.imageDigest && r.stableRef == q.stableRef && r.toolName == q.toolName
    && r.version == q.version && r.casHash == q.casHash && r.fixtureSet == q.fixtureSet
    && multiset(r.actions) == multiset(q.actions)
  }

  lemma {:induction false} JoinAppend(a: seq<string>, f: string)
    ensures Join(a + [f]) == Join(a) + f + [NUL]
  {
    if a == [] {
      assert a + [f] == [f];
    } else {
      assert (a + [f])[1..] == a[1..] + [f];
      JoinAppend(a[1..], f);
    }
  }

  /** The hash is fed field by field, each followed by a zero byte. */
  method RequestFingerprint(r: Request) returns (digest: string)
    ensures digest == FingerprintOf(r)
  {
    var fields := [r.artifactKind, r.imageRepository, r.imageDigest, r.stableRef, r.toolName, r.version, r.casHash];
    fields := fields + SortStrings(r.actions);
    fields := fields + [r.fixtureSet];
    digest := [];
    for i := 0 to |fields|
      invariant digest == Join(fields[..i])
    {
      assert fields[..i + 1] == fields[..i] + [fields[i]];
      JoinAppend(fields[..i], fields[i]);
      digest := digest + fields[i];
      digest := digest + [NUL];
    }
    assert fields[..|fields|] == fields;
  }

  /** The preimage written out: seven fields in this order, the sorted actions, the fixture set, a zero byte
      after each. */
  lemma FingerprintLayout(r: Request)
    ensures FingerprintOf(r)
         == r.artifactKind + [NUL] + r.imageRepository + [NUL] + r.imageDigest + [NUL] + r.stableRef + [NUL]
            + r.toolName + [NUL] + r.version + [NUL] + r.casHash + [NUL]
            + Join(SortStrings(r.actions)) + r.fixtureSet + [NUL]
  {
    var a := r.artifactKind + [NUL] + r.imageRepository + [NUL] + r.imageDigest + [NUL] + r.stableRef + [NUL];
    var b := a + r.toolName + [NUL] + r.version + [NUL] + r.casHash + [NUL];
    var four := [r.artifactKind, r.imageRepository, r.imageDigest, r.stableRef];
    var seven := four + [r.toolName, r.version, r.casHash];
    FourFields(r.artifactKind, r.imageRepository, r.imageDigest, r.stableRef);
    JoinAppend(four, r.toolName);
    JoinAppend(four + [r.toolName], r.version);
    JoinAppend(four + [r.toolName] + [r.version], r.casHash);
    assert seven == four + [r.toolName] + [r.version] + [r.casHash];
    assert Join(seven) == b;
    JoinConcat(seven, SortStrings(r.actions));
    assert Fields(r) == seven + SortStrings(r.actions) + [r.fixtureSet];
    JoinAppend(seven + SortStrings(r.actions), r.fixtureSet);
  }

  lemma FourFields(a: string, b: string, c: string, d: string)
    ensures Join([a, b, c, d]) == a + [NUL] + b + [NUL] + c + [NUL] + d + [NUL]
  {
    assert [] + [a] == [a] && [a] + [b] == [a, b] && [a, b] + [c] == [a, b, c] && [a, b, c] + [d] == [a, b, c, d];
    JoinAppend([], a);
    JoinAppend([a], b);
    JoinAppend([a, b], c);
    JoinAppend([a, b, c], d);
  }

  /** The separator makes the preimage uniquely decodable on NUL-free fields. */
  lemma {:induction false} JoinIsInjective(a: seq<string>, b: seq<string>)
    requires forall f :: f in a ==> NulFree(f)
    requires forall f :: f in b ==> NulFree(f)
    requires Join(a) == Join(b)
    ensures a == b
  {
    if a != [] && b != [] {
      var s := Join(a);
      assert s[|a[0]|] == NUL && s[..|a[0]|] == a[0];
      assert s[|b[0]|] == NUL && s[..|b[0]|] == b[0];
      assert a[0] in a && b[0] in b;
      assert |a[0]| == |b[0]|;
      assert s[|a[0]| + 1..] == Join(a[1..]);
      assert s[|b[0]| + 1..] == Join(b[1..]);
      JoinIsInjective(a[1..], b[1..]);
      assert a == [a[0]] + a[1..] && b == [b[0]] + b[1..];
    }
  }

  /** Reordering the requested actions never changes the fingerprint. */
  lemma FingerprintIgnoresActionOrder(r: Request, q: Request)
    requires SameRequest(r, q)
    ensures FingerprintOf(r) == FingerprintOf(q)
  {
    SortStringsSorts(r.actions);
    SortStringsSorts(q.actions);
    SortedIsUnique(SortStrings(r.actions), SortStrings(q.actions));
  }

  /** On NUL-free requests, equal fingerprints mean the same request, and conversely. */
  lemma FingerprintIdentifiesRequest(r: Request, q: Request)
    requires NulFreeRequest(r) && NulFreeRequest(q)
    ensures FingerprintOf(r) == FingerprintOf(q) <==> SameRequest(r, q)
  {
    if SameRequest(r, q) {
      FingerprintIgnoresActionOrder(r, q);
    }
    if FingerprintOf(r) == FingerprintOf(q) {
      var a, b := Fields(r), Fields(q);
      JoinIsInjective(a, b);
      assert a[7..|a| - 1] == SortStrings(r.actions) && b[7..|b| - 1] == SortStrings(q.actions);
      SortStringsSorts(r.actions);
      SortStringsSorts(q.actions);
      assert forall i :: 0 <= i < 7 ==> a[i] == b[i];
      assert a[0] == r.artifactKind && a[1] == r.imageRepository && a[2] == r.imageDigest && a[3] == r.stableRef;
      assert a[4] == r.toolName && a[5] == r.version && a[6] == r.casHash && a[|a| - 1] == r.fixtureSet;
    }
  }

  // ---------- which requests have a fingerprint of their own ----------

  lemma {:induction false} JoinConcat(a: seq<string>, b: seq<string>)
    ensures Join(a + b) == Join(a) + Join(b)
  {
    if a == [] {
      assert a + b == b;
    } else {
      assert (a + b)[1..] == a[1..] + b;
      JoinConcat(a[1..], b);
    }
  }

  /** Two neighbouring fields hash like one field with a zero byte between them. */
  lemma JoinMerges(a: seq<string>, x: string, y: string, b: seq<string>)
    ensures Join(a + [x, y] + b) == Join(a + [x + [NUL] + y] + b)
  {
    JoinPair(x, y);
    JoinConcat(a, [x, y]);
    JoinConcat(a + [x, y], b);
    JoinConcat(a, [x + [NUL] + y]);
    JoinConcat(a + [x + [NUL] + y], b);
  }

  lemma JoinPair(x: string, y: string)
    ensures Join([x, y]) == Join([x + [NUL] + y])
  {
    assert [x, y] == [x] + [y] && [x] == [] + [x] && [y] == [] + [y];
    JoinConcat([x], [y]);
    JoinAppend([], x);
    JoinAppend([], y);
    assert [x + [NUL] + y] == [] + [x + [NUL] + y];
    JoinAppend([], x + [NUL] + y);
  }

  /** How many separators a text contains. */
  function Nuls(s: string): nat {
    if s == [] then 0 else Nuls(s[1..]) + if s[0] == NUL then 1 else 0
  }

  lemma {:induction false} NulsAdd(s: string, t: string)
    ensures Nuls(s + t) == Nuls(s) + Nuls(t)
  {
    if s == [] {
      assert s + t == t;
    } else {
      assert (s + t)[1..] == s[1..] + t;
      NulsAdd(s[1..], t);
    }
  }

  lemma {:induction false} NoNuls(s: string)
    ensures Nuls(s) == 0 <==> NulFree(s)
  {
    if s != [] {
      NoNuls(s[1..]);
      assert s == [s[0]] + s[1..];
    }
  }

  /** Every field contributes its separator, so as many separators as fields means that no field contains one. */
  lemma {:induction false} SeparatorsCount(fields: seq<string>)
    ensures Nuls(Join(fields)) >= |fields|
    ensures Nuls(Join(fields)) == |fields| <==> forall f :: f in fields ==> NulFree(f)
  {
    if fields != [] {
      SeparatorsCount(fields[1..]);
      NulsAdd(fields[0] + [NUL], Join(fields[1..]));
      NulsAdd(fields[0], [NUL]);
      assert Nuls([NUL]) == 1;
      NoNuls(fields[0]);
      assert fields == [fields[0]] + fields[1..];
    }
  }

  /** A request without actions and without zero bytes shares its fingerprint with no other. */
  lemma PlainRequestIsAlone(r: Request, q: Request)
    requires r.actions == [] && NulFreeRequest(r) && FingerprintOf(q) == FingerprintOf(r)
    ensures SameRequest(r, q)
  {
    assert |Fields(r)| == 8 && |Fields(q)| == 8 + |SortStrings(q.actions)|;
    SeparatorsCount(Fields(r));
    SeparatorsCount(Fields(q));
    FingerprintIdentifiesRequest(r, q);
  }

  /** The first action moved, behind a zero byte, into the field before it. */
  function FirstActionMoved(r: Request): Request {
    var s := SortStrings(r.actions);
    if s == [] then r else r.(casHash := r.casHash + [NUL] + s[0], actions := s[1..])
  }

  lemma SortedCount(actions: seq<string>)
    ensures |SortStrings(actions)| == |actions|
  {
    SortStringsSorts(actions);
    assert |multiset(SortStrings(actions))| == |multiset(actions)|;
  }

  lemma SortedTailIsSorted(actions: seq<string>)
    requires actions != [] && |SortStrings(actions)| == |actions|
    ensures SortStrings(SortStrings(actions)[1..]) == SortStrings(actions)[1..]
  {
    var t := SortStrings(actions)[1..];
    SortStringsSorts(actions);
    SortStringsSorts(t);
    SortedIsUnique(SortStrings(t), t);
  }

  lemma MovedFields(r: Request, s: seq<string>, q: Request)
    requires s == SortStrings(r.actions) && s != [] && SortStrings(s[1..]) == s[1..]
    requires q == r.(casHash := r.casHash + [NUL] + s[0], actions := s[1..])
    ensures Join(Fields(q)) == Join(Fields(r))
  {
    var a := [r.artifactKind, r.imageRepository, r.imageDigest, r.stableRef, r.toolName, r.version];
    var b := s[1..] + [r.fixtureSet];
    assert Fields(r) == a + [r.casHash, s[0]] + b by {
      assert s == [s[0]] + s[1..];
    }
    assert Fields(q) == a + [r.casHash + [NUL] + s[0]] + b;
    JoinMerges(a, r.casHash, s[0], b);
  }

  /** Every request with an action shares its fingerprint with a different one, zero bytes or not. */
  lemma ActionsCollide(r: Request)
    requires r.actions != []
    ensures FingerprintOf(FirstActionMoved(r)) == FingerprintOf(r) && !SameRequest(r, FirstActionMoved(r))
  {
    SortedCount(r.actions);
    SortedTailIsSorted(r.actions);
    MovedFields(r, SortStrings(r.actions), FirstActionMoved(r));
    assert |FirstActionMoved(r).casHash| != |r.casHash|;
  }

  /** A request of given fields and without actions. */
  function Unpacked(fields: seq<string>, key: string): Request
    requires |fields| == 8
  {
    Request(fields[0], fields[1], fields[2], fields[3], fields[4], fields[5], fields[6], [], fields[7], key)
  }

  /** Where a zero byte stands in one of two neighbouring fields, the boundary between them can be moved. */
  lemma BoundaryMoves(a: seq<string>, x: string, y: string, b: seq<string>) returns (u: string, v: string)
    requires !NulFree(x) || !NulFree(y)
    ensures u != x && Join(a + [u, v] + b) == Join(a + [x, y] + b)
  {
    if !NulFree(x) {
      var k :| 0 <= k < |x| && x[k] == NUL;
      u, v := x[..k], x[k + 1..] + [NUL] + y;
      assert u + [NUL] + v == x + [NUL] + y;
    } else {
      var k :| 0 <= k < |y| && y[k] == NUL;
      u, v := x + [NUL] + y[..k], y[k + 1..];
      assert u + [NUL] + v == x + [NUL] + y;
    }
    JoinMerges(a, u, v, b);
    JoinMerges(a, x, y, b);
  }

  /** A zero byte in any field of a request without actions can be read as a field boundary. */
  lemma NulFieldsCollide(r: Request) returns (q: Request)
    requires r.actions == [] && !NulFreeRequest(r)
    ensures FingerprintOf(q) == FingerprintOf(r) && !SameRequest(r, q)
  {
    var f := Fields(r);
    assert |f| == 8;
    var i :| 0 <= i < |f| && !NulFree(f[i]);
    var g, k := OtherFields(f, i);
    q := Unpacked(g, r.validationRequestId);
    assert Fields(q) == g;
    DifferentFields(r, q, k);
  }

  lemma OtherFields(f: seq<string>, i: nat) returns (g: seq<string>, k: nat)
    requires |f| == 8 && i < 8 && !NulFree(f[i])
    ensures |g| == 8 && Join(g) == Join(f) && k < 7 && g[k] != f[k]
  {
    k := if i < 7 then i else 6;
    var u, v := BoundaryMoves(f[..k], f[k], f[k + 1], f[k + 2..]);
    g := f[..k] + [u, v] + f[k + 2..];
    assert f == f[..k] + [f[k], f[k + 1]] + f[k + 2..];
  }

  lemma DifferentFields(r: Request, q: Request, k: nat)
    requires r.actions == [] && q.actions == [] && k < 7 && Fields(r)[k] != Fields(q)[k]
    ensures !SameRequest(r, q)
  {
  }

  /** Exactly the requests without actions and without zero bytes have a fingerprint of their own. */
  lemma FingerprintIsUniqueExactly(r: Request)
    ensures (forall q :: FingerprintOf(q) == FingerprintOf(r) ==> SameRequest(r, q))
            <==> r.actions == [] && NulFreeRequest(r)
  {
    if r.actions == [] && NulFreeRequest(r) {
      forall q | FingerprintOf(q) == FingerprintOf(r) ensures SameRequest(r, q) {
        PlainRequestIsAlone(r, q);
      }
    } else if r.actions != [] {
      ActionsCollide(r);
    } else {
      var q := NulFieldsCollide(r);
    }
  }

  /** The smallest pair: naming the action smoke_run, or writing it behind the CAS hash. */
  lemma CollidingPair(r: Request, q: Request)
    requires r == Request("", "", "", "", "", "", "c", ["smoke_run"], "", "")
    requires q == Request("", "", "", "", "", "", "c\0smoke_run", [], "", "")
    ensures FingerprintOf(q) == FingerprintOf(r) && !SameRequest(r, q)
  {
    assert SortStrings(["smoke_run"]) == Insert("smoke_run", SortStrings([]));
    var a := ["", "", "", "", "", ""];
    assert Fields(r) == a + ["c", "smoke_run"] + [""];
    assert "c" + [NUL] + "smoke_run" == "c\0smoke_run";
    assert Fields(q) == a + ["c" + [NUL] + "smoke_run"] + [""];
    JoinMerges(a, "c", "smoke_run", [""]);
  }
}
