/**
 * Job identifiers: how `generate` derives the final and the draft id
 * (app.py:91-92) and the allow-list `download` applies to an id
 * (app.py:202).
 */
module Ids {

  /** Python's `str.isalnum` on one character, restricted to ASCII. */
  predicate IsAsciiAlnum(c: char) {
    ('a' <= c <= 'z') || ('A' <= c <= 'Z') || ('0' <= c <= '9')
  }

  /** A character of `uuid.UUID.hex`: a lower-case hexadecimal digit. */
  predicate IsLowerHex(c: char) {
    ('0' <= c <= '9') || ('a' <= c <= 'f')
  }

  /** The shape of `uuid.uuid4().hex`: 32 lower-case hexadecimal digits. */
  predicate IsUuidHex(u: string) {
    |u| == 32 && forall c :: c in u ==> IsLowerHex(c)
  }

  const JobIdLength: nat := 12
  const DraftSuffix: string := "_draft"

  /** `uuid.uuid4().hex[:12]` (app.py:91). */
  function JobIdOf(uuidHex: string): (id: string)
    requires IsUuidHex(uuidHex)
    ensures |id| == JobIdLength
    ensures forall c :: c in id ==> IsLowerHex(c)
  {
    uuidHex[..JobIdLength]
  }

  /** `job_id + "_draft"` (app.py:92). */
  function DraftIdOf(jobId: string): string {
    jobId + DraftSuffix
  }

  /** Python's `s.replace("_", "")`. */
  function WithoutUnderscores(s: string): (r: string)
    ensures |r| <= |s|
  {
    if s == [] then []
    else (if s[0] == '_' then [] else [s[0]]) + WithoutUnderscores(s[1..])
  }

  /** Python's `str.isalnum` (ASCII): non-empty, and letters and digits only. */
  predicate IsAlnum(s: string) {
    |s| > 0 && forall c :: c in s ==> IsAsciiAlnum(c)
  }

  /** The check `job_id.replace("_", "").isalnum()` (app.py:202). */
  predicate IsValidJobId(id: string) {
    IsAlnum(WithoutUnderscores(id))
  }

  /** The characters a download id may consist of. */
  predicate InAllowList(c: char) {
    IsAsciiAlnum(c) || c == '_'
  }

  /** Removing underscores keeps exactly the other characters. */
  lemma {:induction false} WithoutUnderscoresMembers(s: string, c: char)
    ensures c in WithoutUnderscores(s) <==> c in s && c != '_'
  {
    if s != [] {
      WithoutUnderscoresMembers(s[1..], c);
      assert s == [s[0]] + s[1..];
    }
  }

  /**
   * The allow-list, read out: an id passes exactly when it is made of
   * letters, digits and underscores and has at least one letter or digit
   * (so "" and "___" fail, as `"".isalnum()` is false in Python).
   */
  lemma ValidJobIdIff(id: string)
    ensures IsValidJobId(id) <==>
      (forall c :: c in id ==> InAllowList(c)) && (exists c :: c in id && IsAsciiAlnum(c))
  {
    var w := WithoutUnderscores(id);
    forall c ensures c in w <==> c in id && c != '_' {
      WithoutUnderscoresMembers(id, c);
    }
    if IsValidJobId(id) {
      assert w[0] in w;
    }
  }

  /**
   * The two ids `generate` derives are both accepted by `download`, and
   * they differ (app.py:91-92 against app.py:202).
   */
  lemma DerivedIdsValid(uuidHex: string)
    requires IsUuidHex(uuidHex)
    ensures IsValidJobId(JobIdOf(uuidHex))
    ensures IsValidJobId(DraftIdOf(JobIdOf(uuidHex)))
    ensures JobIdOf(uuidHex) != DraftIdOf(JobIdOf(uuidHex))
  {
    var id := JobIdOf(uuidHex);
    var draft := DraftIdOf(id);
    ValidJobIdIff(id);
    ValidJobIdIff(draft);
    assert id[0] in id;
    assert draft[0] == id[0];
    assert draft[0] in draft;
    forall c | c in draft ensures InAllowList(c) {
      assert c in id || c in DraftSuffix;
    }
    assert |draft| == |id| + 6;
  }
}
