/** Id normalisation of `utils.rs`: a DAO or proposal uuid becomes a string non-fungible local id. */
module Utils {
  import opened Wrappers
  import opened Ledger

  /** Longest string local id the ledger accepts. */
  const MAX_STRING_LOCAL_ID_LENGTH: nat := 64

  predicate IsLocalIdChar(c: char) {
    ('a' <= c <= 'z') || ('A' <= c <= 'Z') || ('0' <= c <= '9') || c == '_'
  }

  /**
   * The ledger's rule for `NonFungibleLocalId::string`: between 1 and 64
   * characters, each a letter, a digit or `_`.
   */
  predicate IsValidStringLocalId(s: string) {
    0 < |s| <= MAX_STRING_LOCAL_ID_LENGTH && forall i :: 0 <= i < |s| ==> IsLocalIdChar(s[i])
  }

  /** The characters a uuid may carry so that it normalises to a valid local id. */
  predicate IsIdSourceChar(c: char) {
    IsLocalIdChar(c) || c == '-'
  }

  predicate IsSeparator(c: char) {
    c == '-' || c == '_'
  }

  function Underscored(c: char): char {
    if c == '-' then '_' else c
  }

  /** `uuid.replace("-", "_")`: every `-` becomes `_`, every other character stays where it was. */
  function ReplaceHyphens(uuid: string): (r: string)
    ensures |r| == |uuid|
    ensures forall i :: 0 <= i < |uuid| ==> r[i] == (if uuid[i] == '-' then '_' else uuid[i])
    ensures '-' !in r
  {
    if uuid == [] then [] else [Underscored(uuid[0])] + ReplaceHyphens(uuid[1..])
  }

  /**
   * `create_non_fungible_id_of_uuid`: normalise, then build a string local id,
   * aborting (the `unwrap`) when the ledger refuses it.
   */
  function CreateNonFungibleIdOfUuid(uuid: string): (r: Result<string, Error>)
    ensures r.Success? <==> 0 < |uuid| <= MAX_STRING_LOCAL_ID_LENGTH && forall i :: 0 <= i < |uuid| ==> IsIdSourceChar(uuid[i])
    ensures r.Success? ==> r.value == ReplaceHyphens(uuid) && '-' !in r.value && IsValidStringLocalId(r.value)
    ensures r.Failure? ==> r.error == InvalidLocalId(ReplaceHyphens(uuid))
  {
    var id := ReplaceHyphens(uuid);
    ReplacedValidIff(uuid);
    if IsValidStringLocalId(id) then Success(id) else Failure(InvalidLocalId(id))
  }

  lemma ReplacedValidIff(uuid: string)
    ensures IsValidStringLocalId(ReplaceHyphens(uuid))
        <==> 0 < |uuid| <= MAX_STRING_LOCAL_ID_LENGTH && forall i :: 0 <= i < |uuid| ==> IsIdSourceChar(uuid[i])
  {
  }

  /** Normalising twice is normalising once. */
  lemma ReplaceHyphensIdempotent(uuid: string)
    ensures ReplaceHyphens(ReplaceHyphens(uuid)) == ReplaceHyphens(uuid)
  {
  }

  /** An id without `-` is its own normal form. */
  lemma ReplaceHyphensFixesHyphenFree(uuid: string)
    requires '-' !in uuid
    ensures ReplaceHyphens(uuid) == uuid
  {
  }

  /**
   * Two uuids normalise to the same local id exactly when they have the same
   * length and differ only by `-` against `_` at the same positions.
   */
  lemma ReplaceHyphensCollideIff(s: string, t: string)
    ensures ReplaceHyphens(s) == ReplaceHyphens(t) <==> SameUpToSeparators(s, t)
  {
  }

  /** `s` and `t` agree everywhere except that one may have `-` where the other has `_`. */
  predicate SameUpToSeparators(s: string, t: string) {
    |s| == |t| && forall i :: 0 <= i < |s| ==> s[i] == t[i] || (IsSeparator(s[i]) && IsSeparator(t[i]))
  }

  /** Normalisation is not injective: `a-b` and `a_b` name the same non-fungible. */
  lemma ReplaceHyphensNotInjective()
    ensures "a-b" != "a_b" && ReplaceHyphens("a-b") == ReplaceHyphens("a_b")
  {
  }
}
