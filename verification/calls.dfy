/** The calls the activity makes on its collaborators, in order, and how
    many of each kind a log holds. */
module Calls {
  import opened Models

  datatype Call =
    | FindLastVersionByModelId(fiscalCode: FiscalCode)
    | FindServicePreference(fiscalCode: FiscalCode, serviceId: ServiceId, version: int)
    | StoreContentAsBlob(messageId: MessageId, content: MessageContent)
    | Upsert(message: NewMessageWithoutContent)

  /** Which collaborator a call goes to. */
  datatype Collaborator = ProfileStore | PreferenceStore | BlobStore | MessageStore

  function Target(c: Call): Collaborator
  {
    match c
    case FindLastVersionByModelId(_) => ProfileStore
    case FindServicePreference(_, _, _) => PreferenceStore
    case StoreContentAsBlob(_, _) => BlobStore
    case Upsert(_) => MessageStore
  }

  /** How many calls of `log` went to `k`. */
  function Count(log: seq<Call>, k: Collaborator): (n: nat)
    ensures n <= |log|
    ensures n == 0 <==> forall i :: 0 <= i < |log| ==> Target(log[i]) != k
  {
    if log == [] then 0
    else (if Target(log[0]) == k then 1 else 0) + Count(log[1..], k)
  }

  lemma {:induction false} CountConcat(a: seq<Call>, b: seq<Call>, k: Collaborator)
    ensures Count(a + b, k) == Count(a, k) + Count(b, k)
  {
    if a == [] {
      assert a + b == b;
    } else {
      assert (a + b)[1..] == a[1..] + b;
      CountConcat(a[1..], b, k);
    }
  }
}
