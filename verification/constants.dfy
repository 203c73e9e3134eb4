/**
 * The choice enums of the events app and `build_tuple_types`, which turns
 * an enum into Django `choices`: one (value, label) pair per member, the
 * value doubling as label.
 */
module Choices {

  /** `EventCategory` member values, in declaration order. */
  const EventCategory: seq<string> := ["Workshops", "Talks"]

  /** `EventType` member values, in declaration order. */
  const EventType: seq<string> := ["Online", "In-person", "Hybrid"]

  /** `Community` member values, in declaration order. */
  const Community: seq<string> := ["Django Cameroon", "Django Girls Cameroon"]

  /** `build_tuple_types` */
  function BuildTupleTypes(members: seq<string>): (choices: seq<(string, string)>)
    ensures |choices| == |members|
    ensures forall i :: 0 <= i < |members| ==> choices[i] == (members[i], members[i])
  {
    seq(|members|, i requires 0 <= i < |members| => (members[i], members[i]))
  }

  /** The stored values of a choices list, in order. */
  function Values(choices: seq<(string, string)>): (vs: seq<string>)
    ensures |vs| == |choices| && forall i :: 0 <= i < |choices| ==> vs[i] == choices[i].0
  {
    seq(|choices|, i requires 0 <= i < |choices| => choices[i].0)
  }

  /** The stored values of the built choices are the enum's values, in order: nothing lost, added or moved. */
  lemma ValuesRoundTrip(members: seq<string>)
    ensures Values(BuildTupleTypes(members)) == members
    ensures forall c :: c in BuildTupleTypes(members) ==> c.0 == c.1 && c.0 in members
  {
  }

  const EventCategories: seq<(string, string)> := BuildTupleTypes(EventCategory)
  const EventTypes: seq<(string, string)> := BuildTupleTypes(EventType)
  const Communities: seq<(string, string)> := BuildTupleTypes(Community)

  /** The three choice lists, exactly. */
  lemma ChoiceTuples()
    ensures EventTypes == [("Online", "Online"), ("In-person", "In-person"), ("Hybrid", "Hybrid")]
    ensures EventCategories == [("Workshops", "Workshops"), ("Talks", "Talks")]
    ensures Communities == [("Django Cameroon", "Django Cameroon"), ("Django Girls Cameroon", "Django Girls Cameroon")]
  {
    assert EventTypes[0] == ("Online", "Online");
  }
}
