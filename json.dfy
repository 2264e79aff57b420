/**
 * The JSON object a status handler sends, as its ordered list of members
 * (key, value) rather than as serialised text.
 */
module Json {

  datatype Option<T> = None | Some(value: T)

  /** No key occurs twice among the members. */
  predicate DistinctKeys<V>(members: seq<(string, V)>)
  {
    forall i, j | 0 <= i < j < |members| :: members[i].0 != members[j].0
  }

  /** The value the object gives for `key`, if it has a member with that key. */
  function Lookup<V>(members: seq<(string, V)>, key: string): (r: Option<V>)
    ensures r.None? <==> forall j | 0 <= j < |members| :: members[j].0 != key
    ensures r.Some? ==> exists j | 0 <= j < |members| :: members[j] == (key, r.value)
    decreases |members|
  {
    if members == [] then None
    else if members[0].0 == key then Some(members[0].1)
    else Lookup(members[1..], key)
  }

  /** When keys are distinct, each member's key looks up that member's value. */
  lemma LookupMember<V>(members: seq<(string, V)>, j: nat)
    requires DistinctKeys(members)
    requires j < |members|
    ensures Lookup(members, members[j].0) == Some(members[j].1)
  {
  }
}
