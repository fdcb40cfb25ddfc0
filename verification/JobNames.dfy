/** Kubernetes Job names: pkg/worker/jobspec.go, l5aJobName in pkg/worker/l5a.go, isLegacyJobName in
    pkg/worker/worker.go and newExecutionID in pkg/work/sqlite/store.go. */
module JobNames {
  import opened Digits

  predicate IsLower(c: char) {
    'a' <= c <= 'z'
  }

  predicate IsHex(c: char) {
    IsDigit(c) || 'a' <= c <= 'f'
  }

  /** A DNS label: section 2.3.4 of RFC 1035 bounds its length, section 2.1 of RFC 1123 its characters. */
  predicate DnsLabel(s: string) {
    && 1 <= |s| <= 63
    && LabelText(s)
    && s[0] != '-' && s[|s| - 1] != '-'
  }

  // ---------- sanitising ----------

  function SanitizeByte(c: char): char {
    if IsLower(c) || IsDigit(c) || c == '-' then c
    else if 'A' <= c <= 'Z' then c - 'A' + 'a'
    else '-'
  }

  function Sanitize(s: string): (r: string)
    ensures |r| == |s|
    ensures forall i :: 0 <= i < |r| ==> r[i] == SanitizeByte(s[i])
  {
    seq(|s|, i requires 0 <= i < |s| => SanitizeByte(s[i]))
  }

  function Truncate(s: string, max: nat): string {
    if |s| > max then s[..max] else s
  }

  const NAME_MAX: nat := 30
  const LEGACY_MAX: nat := 50

  /** sanitizeDNSLabelMax: one output byte per input byte, then cut. */
  method SanitizeDnsLabelMax(s: string, max: nat) returns (out: string)
    ensures out == Truncate(Sanitize(s), max)
    ensures |out| == if |s| <= max then |s| else max
    ensures forall i :: 0 <= i < |out| ==>
              out[i] == if IsLower(s[i]) || IsDigit(s[i]) || s[i] == '-' then s[i]
                        else if 'A' <= s[i] <= 'Z' then s[i] - 'A' + 'a'
                        else '-'
    ensures |out| <= max && forall i :: 0 <= i < |out| ==> IsLower(out[i]) || IsDigit(out[i]) || out[i] == '-'
  {
    out := [];
    for i := 0 to |s|
      invariant out == Sanitize(s[..i])
    {
      var c := s[i];
      if IsLower(c) || IsDigit(c) || c == '-' {
        out := out + [c];
      } else if 'A' <= c <= 'Z' {
        out := out + [c - 'A' + 'a'];
      } else {
        out := out + ['-'];
      }
      assert out == Sanitize(s[..i + 1]);
    }
    assert s[..|s|] == s;
    if |out| > max {
      out := out[..max];
    }
  }

  // ---------- names ----------

  /** Eight random bytes in hexadecimal. */
  predicate RandomSuffix(s: string) {
    |s| == 16 && forall i :: 0 <= i < |s| ==> IsHex(s[i])
  }

  /** newExecutionID: "a<attempt>-<suffix>". */
  function ExecutionId(attempt: nat, suffix: string): string {
    "a" + Decimal(attempt) + "-" + suffix
  }

  datatype Kind = SmokeRun | L5aRun

  function Prefix(kind: Kind): string {
    if kind.SmokeRun? then "smoke-" else "l5a-"
  }

  function ShortId(jobId: string): string {
    Truncate(Sanitize(jobId), NAME_MAX)
  }

  function LongId(jobId: string): string {
    Truncate(Sanitize(jobId), LEGACY_MAX)
  }

  /** smokeJobName and l5aJobName. */
  function CurrentName(kind: Kind, jobId: string, executionId: string): string {
    Prefix(kind) + ShortId(jobId) + "-" + executionId
  }

  /** The attempt-derived name of workers without execution identities. */
  function LegacyName(kind: Kind, jobId: string, attempt: nat): string {
    Prefix(kind) + LongId(jobId) + "-" + Decimal(attempt)
  }

  /** Every current name is a valid DNS label, for every job id, exactly as long as it fits: always for
      attempts below 10^8; a smoke-run name of a long id stops fitting there. */
  lemma CurrentNamesAreLabels(kind: Kind, jobId: string, attempt: nat, suffix: string)
    requires RandomSuffix(suffix)
    ensures attempt < Pow10(8) ==> DnsLabel(CurrentName(kind, jobId, ExecutionId(attempt, suffix)))
    ensures kind.SmokeRun? && |jobId| >= NAME_MAX ==>
              (DnsLabel(CurrentName(kind, jobId, ExecutionId(attempt, suffix))) <==> attempt < Pow10(8))
  {
    DecimalLength(attempt, 8);
    var name := CurrentName(kind, jobId, ExecutionId(attempt, suffix));
    var head := Prefix(kind) + ShortId(jobId) + "-" + "a" + Decimal(attempt) + "-";
    assert name == head + suffix;
    LabelCharacters(kind, jobId, attempt, suffix);
    assert name[|name| - 1] == suffix[15];
    assert |name| == |Prefix(kind)| + |ShortId(jobId)| + |Decimal(attempt)| + 19;
  }

  predicate LabelText(s: string) {
    forall i :: 0 <= i < |s| ==> IsLower(s[i]) || IsDigit(s[i]) || s[i] == '-'
  }

  lemma LabelTextAppend(s: string, t: string)
    requires LabelText(s) && LabelText(t)
    ensures LabelText(s + t)
  {
  }

  lemma LabelCharacters(kind: Kind, jobId: string, attempt: nat, suffix: string)
    requires RandomSuffix(suffix)
    ensures var name := CurrentName(kind, jobId, ExecutionId(attempt, suffix)); LabelText(name) && name[0] != '-'
  {
    LabelTextAppend("a", Decimal(attempt));
    LabelTextAppend("a" + Decimal(attempt), "-");
    LabelTextAppend("a" + Decimal(attempt) + "-", suffix);
    ShortIdIsLabelText(jobId);
    LabelTextAppend(Prefix(kind), ShortId(jobId));
    LabelTextAppend(Prefix(kind) + ShortId(jobId), "-");
    LabelTextAppend(Prefix(kind) + ShortId(jobId) + "-", ExecutionId(attempt, suffix));
    assert CurrentName(kind, jobId, ExecutionId(attempt, suffix))[0] == Prefix(kind)[0];
  }

  lemma ShortIdIsLabelText(jobId: string)
    ensures LabelText(ShortId(jobId))
  {
    assert forall i :: 0 <= i < |ShortId(jobId)| ==> ShortId(jobId)[i] == SanitizeByte(jobId[i]);
  }

  /** Names of distinct execution identities differ, and so do the two kinds. */
  lemma CurrentNamesAreDistinct(kind: Kind, other: Kind, jobId: string, x: string, y: string)
    ensures CurrentName(kind, jobId, x) == CurrentName(other, jobId, y) <==> kind == other && x == y
  {
    var a, b := CurrentName(kind, jobId, x), CurrentName(other, jobId, y);
    if a == b {
      assert a[0] == Prefix(kind)[0] && b[0] == Prefix(other)[0];
      var n := |Prefix(kind)| + |ShortId(jobId)| + 1;
      assert a[n..] == x && b[n..] == y;
    }
  }

  /** Identities with distinct random suffixes are distinct, whatever their attempts. */
  lemma DistinctSuffixesGiveDistinctIds(m: nat, n: nat, s: string, t: string)
    requires RandomSuffix(s) && RandomSuffix(t) && s != t
    ensures ExecutionId(m, s) != ExecutionId(n, t)
  {
    var a, b := ExecutionId(m, s), ExecutionId(n, t);
    assert a[|a| - 16..] == s && b[|b| - 16..] == t;
  }

  // ---------- recognising legacy names ----------

  predicate HasPrefix(s: string, p: string) {
    |p| <= |s| && s[..|p|] == p
  }

  /** strings.CutPrefix, then a non-empty rest of decimal digits only. */
  predicate IsAttemptAfter(name: string, head: string) {
    HasPrefix(name, head) && |name| > |head| && AllDigits(name[|head|..])
  }

  /** isLegacyJobName. */
  predicate IsLegacyJobName(name: string, jobId: string) {
    || IsAttemptAfter(name, "smoke-" + LongId(jobId) + "-")
    || IsAttemptAfter(name, "l5a-" + LongId(jobId) + "-")
    || IsAttemptAfter(name, "smoke-" + ShortId(jobId) + "-")
    || IsAttemptAfter(name, "l5a-" + ShortId(jobId) + "-")
  }

  /** Every legacy name is recognised. */
  lemma LegacyNamesAreRecognised(kind: Kind, jobId: string, attempt: nat)
    ensures IsLegacyJobName(LegacyName(kind, jobId, attempt), jobId)
    ensures var id := if |jobId| > 50 then 50 else |jobId|;
            |LegacyName(kind, jobId, attempt)|
            == |if kind.SmokeRun? then "smoke-" else "l5a-"| + id + 1 + |Decimal(attempt)|
  {
    var head := Prefix(kind) + LongId(jobId) + "-";
    var name := LegacyName(kind, jobId, attempt);
    assert name[|head|..] == Decimal(attempt);
    assert IsAttemptAfter(name, head);
  }

  /** The rest of the long id that a current name leaves out. */
  function Tail(jobId: string): string {
    LongId(jobId)[|ShortId(jobId)|..]
  }

  /** A current name never matches under the other kind's prefix. */
  lemma OtherKindNeverMatches(kind: Kind, other: Kind, id: string, jobId: string, x: string)
    requires kind != other
    ensures !IsAttemptAfter(CurrentName(kind, jobId, x), Prefix(other) + id + "-")
  {
    assert CurrentName(kind, jobId, x)[0] == Prefix(kind)[0];
    assert (Prefix(other) + id + "-")[0] == Prefix(other)[0];
  }

  /** Under its own kind's prefix, what matters is what follows the short id. */
  lemma OwnKindMatch(kind: Kind, jobId: string, tail: string, x: string)
    ensures IsAttemptAfter(CurrentName(kind, jobId, x), Prefix(kind) + (ShortId(jobId) + tail) + "-")
            <==> IsAttemptAfter("-" + x, tail + "-")
  {
    var p := Prefix(kind) + ShortId(jobId);
    var name, head := CurrentName(kind, jobId, x), Prefix(kind) + (ShortId(jobId) + tail) + "-";
    assert name == p + ("-" + x) && head == p + (tail + "-");
    if |head| <= |name| {
      assert name[..|head|] == p + ("-" + x)[..|tail + "-"|];
      assert name[|head|..] == ("-" + x)[|tail + "-"|..];
      if name[..|head|] == head {
        assert name[..|head|][|p|..] == head[|p|..];
      }
    }
  }

  /** An identity's text has two dashes to offer: its own start, and the one before the suffix. */
  lemma IdentityMatch(tail: string, attempt: nat, suffix: string)
    requires RandomSuffix(suffix)
    ensures IsAttemptAfter("-" + ExecutionId(attempt, suffix), tail + "-")
            <==> tail == "-a" + Decimal(attempt) && AllDigits(suffix)
  {
    var stem := "-a" + Decimal(attempt);
    assert "-" + ExecutionId(attempt, suffix) == stem + "-" + suffix;
    TextMatch(tail, stem, suffix);
  }

  /** In a text whose only dashes are its first character and the one before the suffix, a head can end only
      at one of them, and digits follow only the second. */
  lemma TextMatch(tail: string, stem: string, suffix: string)
    requires |stem| >= 2 && stem[1] == 'a' && forall i :: 1 <= i < |stem| ==> stem[i] != '-'
    requires suffix != [] && forall i :: 0 <= i < |suffix| ==> suffix[i] != '-'
    ensures IsAttemptAfter(stem + "-" + suffix, tail + "-") <==> tail == stem && AllDigits(suffix)
  {
    var text := stem + "-" + suffix;
    assert text[1..][0] == 'a';
    if IsAttemptAfter(text, tail + "-") {
      assert text[|tail|] == (tail + "-")[|tail|] == '-';
      assert |tail| == 0 || |tail| == |stem|;
      assert tail == (tail + "-")[..|tail|] == text[..|tail|];
      assert text[|stem| + 1..] == suffix;
    }
    if tail == stem && AllDigits(suffix) {
      assert text[..|tail + "-"|] == tail + "-" && text[|tail + "-"|..] == suffix;
    }
  }

  /** Exactly when a current name is taken for a legacy one: the sanitised job id goes on, after its 30th
      character, with this very identity's "-a<attempt>", and the random suffix happens to be all digits. */
  lemma CurrentNameTakenForLegacy(kind: Kind, jobId: string, attempt: nat, suffix: string)
    requires RandomSuffix(suffix)
    ensures IsLegacyJobName(CurrentName(kind, jobId, ExecutionId(attempt, suffix)), jobId)
            <==> Tail(jobId) == "-a" + Decimal(attempt) && AllDigits(suffix)
  {
    var x := ExecutionId(attempt, suffix);
    var other := if kind.SmokeRun? then L5aRun else SmokeRun;
    OtherKindNeverMatches(kind, other, LongId(jobId), jobId, x);
    OtherKindNeverMatches(kind, other, ShortId(jobId), jobId, x);
    assert ShortId(jobId) + Tail(jobId) == LongId(jobId) && ShortId(jobId) + "" == ShortId(jobId);
    OwnKindMatch(kind, jobId, Tail(jobId), x);
    OwnKindMatch(kind, jobId, "", x);
    IdentityMatch(Tail(jobId), attempt, suffix);
    IdentityMatch("", attempt, suffix);
  }

  /** An id that can be confused exists: thirty letters, then "-a1". */
  lemma ConfusableId(suffix: string)
    requires RandomSuffix(suffix) && AllDigits(suffix)
    ensures exists jobId :: IsLegacyJobName(CurrentName(SmokeRun, jobId, ExecutionId(1, suffix)), jobId)
  {
    var letters: string := seq(30, _ => 'x');
    var jobId := letters + "-a1";
    assert Sanitize(jobId) == jobId;
    assert Tail(jobId) == "-a1" && Decimal(1) == "1";
    CurrentNameTakenForLegacy(SmokeRun, jobId, 1, suffix);
  }

  /** newJobID: a prefix and sixteen bytes in hexadecimal. */
  predicate IngressId(jobId: string) {
    || (|jobId| == 36 && jobId[..4] == "job-" && forall i :: 4 <= i < |jobId| ==> IsHex(jobId[i]))
    || (|jobId| == 45 && jobId[..13] == "job-fallback-" && forall i :: 13 <= i < |jobId| ==> IsHex(jobId[i]))
  }

  /** No current name of an ingress job, nor of any id without a dash after its 30th character, is taken for
      a legacy one. */
  lemma IngressNamesAreNeverLegacy(kind: Kind, jobId: string, attempt: nat, suffix: string)
    requires RandomSuffix(suffix)
    requires IngressId(jobId) || forall i :: NAME_MAX <= i < |LongId(jobId)| ==> LongId(jobId)[i] != '-'
    ensures !IsLegacyJobName(CurrentName(kind, jobId, ExecutionId(attempt, suffix)), jobId)
  {
    CurrentNameTakenForLegacy(kind, jobId, attempt, suffix);
    if Tail(jobId) != [] {
      assert Tail(jobId)[0] == LongId(jobId)[NAME_MAX] == SanitizeByte(jobId[NAME_MAX]);
    }
  }
}
