/**
 * The crew registry: the Python dict that maps a crew member's name to the
 * backend conversational agent. Only the part the terminal touches is kept:
 * the keys in insertion order, and for each agent how many times its
 * `reset()` has been called.
 */
module Crew {

  /** A backend agent, abstracted to the number of `reset()` calls it has received. */
  datatype Agent = Agent(resets: nat)

  /** A dict of agents: `names` is the key order that iteration follows, `members` the lookup. */
  datatype Roster = Roster(names: seq<string>, members: map<string, Agent>)

  /** What every Python dict satisfies: each key once, and the order lists exactly the keys. */
  predicate WellFormed(r: Roster) {
    && (forall i, j :: 0 <= i < j < |r.names| ==> r.names[i] != r.names[j])
    && (forall n | n in r.members :: n in r.names)
    && (forall i | 0 <= i < |r.names| :: r.names[i] in r.members)
  }

  /** `roster[name].reset()`: one more reset for `name`, and nothing else. */
  function ResetMember(r: Roster, name: string): (r': Roster)
    requires name in r.members
  {
    r.(members := r.members[name := Agent(r.members[name].resets + 1)])
  }

  /**
   * Resetting a member changes only that member's reset count, by one,
   * and keeps the dict well formed with the same keys in the same order.
   */
  lemma {:induction false} ResetMemberEffect(r: Roster, name: string)
    requires WellFormed(r) && name in r.members
    ensures var r' := ResetMember(r, name);
      && WellFormed(r') && r'.names == r.names && r'.members.Keys == r.members.Keys
      && r'.members[name].resets == r.members[name].resets + 1
      && (forall n :: n in r.members && n != name ==> r'.members[n] == r.members[n])
  {
  }
}
