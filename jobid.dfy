/** The identity of a job: an (Id, Name) pair compared ordinally on both fields. */
module JobIds {
  import opened Wrappers
  import opened Strings

  datatype JobId = JobId(id: string, name: string)

  /** What the public constructor guarantees of every identity it builds. */
  predicate Valid(j: JobId) {
    !IsNullOrWhiteSpace(Some(j.id)) && !IsNullOrWhiteSpace(Some(j.name))
  }

  /** `new JobId(id, name)`: both arguments must be present and not blank. */
  function NewJobId(id: Option<string>, name: Option<string>): (r: Result<JobId, Failure>)
    ensures r.Ok? <==> !IsNullOrWhiteSpace(id) && !IsNullOrWhiteSpace(name)
    ensures r.Ok? ==> Valid(r.value) && r.value.id == id.value && r.value.name == name.value
    ensures r.Err? ==> r.error == ArgumentNull("id, name")
  {
    if IsNullOrWhiteSpace(id) || IsNullOrWhiteSpace(name) then Err(ArgumentNull("id, name"))
    else Ok(JobId(id.value, name.value))
  }

  /** `Equals(JobId)`: ordinal comparison of both fields. */
  predicate Equals(a: JobId, b: JobId) {
    a.id == b.id && a.name == b.name
  }

  /** The argument of `Equals(object)`: null, a JobId, or an object of some other type. */
  datatype Obj = NullObj | AJobId(jobId: JobId) | OtherObj(ref: nat)

  /** `Equals(object)`: a JobId argument is compared field by field; anything else falls back
      to reference equality, which a JobId never has with a non-JobId. */
  predicate EqualsObject(a: JobId, o: Obj) {
    if o.AJobId? then Equals(a, o.jobId) else false
  }

  /** `GetHashCode`: the string hash of `Id + Name`; the string hash itself is a parameter. */
  function HashCode(j: JobId, stringHash: string -> int): int {
    stringHash(j.id + j.name)
  }

  /** `ToString`: the text every runner uses as a map key. */
  function Key(j: JobId): string {
    j.id + "[-]" + j.name
  }

  /** A key is never blank: it always contains the separator "[-]". */
  lemma KeyNeverBlank(j: JobId)
    ensures !IsNullOrWhiteSpace(Some(Key(j)))
  {
    assert Key(j)[|j.id|] == '[';
    NonBlankWitness(Key(j), |j.id|);
  }

  /** Equality by fields coincides with equality of the values, so it is an equivalence. */
  lemma EqualsIsValueEquality(a: JobId, b: JobId)
    ensures Equals(a, b) <==> a == b
    ensures Equals(a, a)
    ensures Equals(a, b) ==> Equals(b, a)
  {
  }

  /** Comparing with an object: true exactly for a JobId with the same fields. */
  lemma EqualsObjectCases(a: JobId, o: Obj)
    ensures EqualsObject(a, o) <==> o == AJobId(a)
  {
  }

  /** Equal identities hash alike and share one runner key, whatever the string hash is. */
  lemma EqualIdsAgree(a: JobId, b: JobId, stringHash: string -> int)
    requires Equals(a, b)
    ensures HashCode(a, stringHash) == HashCode(b, stringHash)
    ensures Key(a) == Key(b)
  {
  }

  /** The key string does not determine the identity: two different valid ids render alike. */
  lemma KeyCollision()
    ensures Valid(JobId("a[-]b", "c")) && Valid(JobId("a", "b[-]c"))
    ensures JobId("a[-]b", "c") != JobId("a", "b[-]c")
    ensures Key(JobId("a[-]b", "c")) == Key(JobId("a", "b[-]c"))
  {
    NonBlankWitness("a[-]b", 0);
    NonBlankWitness("c", 0);
    NonBlankWitness("a", 0);
    NonBlankWitness("b[-]c", 0);
    assert Key(JobId("a[-]b", "c")) == "a[-]b[-]c";
    assert Key(JobId("a", "b[-]c")) == "a[-]b[-]c";
  }

  /** When no Id contains '[', the key does determine the identity: the first '[' of the key
      marks where the Id ends. */
  lemma {:induction false} KeyInjectiveWithoutBracket(a: JobId, b: JobId)
    requires '[' !in a.id && '[' !in b.id
    requires Key(a) == Key(b)
    ensures a == b
  {
    var ka, kb := Key(a), Key(b);
    assert ka[|a.id|] == '[' && kb[|b.id|] == '[';
    assert |a.id| == |b.id|;
    assert a.id == ka[..|a.id|] == kb[..|b.id|] == b.id;
    assert a.name == ka[|a.id| + 3..] == kb[|b.id| + 3..] == b.name;
  }
}
