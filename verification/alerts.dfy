/** One alert of an incoming batch, the contact directory, and the pure
    decisions the handler takes per alert: its message text and whom it sends
    that message to. */
module Alerts {
  import opened Common

  /** A JSON object whose values are strings. */
  type Dict = map<string, string>

  /** One entry of the webhook's `alerts` list; either object may be absent. */
  datatype Alert = Alert(labels: Option<Dict>, annotations: Option<Dict>)

  /** A directory entry: one team member. */
  datatype Member = Member(phone: string)

  /** The contact directory, loaded once: team name to its ordered members. */
  type Contacts = map<string, seq<Member>>

  const MessagePrefix := "Alert: "
  const DefaultDescription := "No description provided"
  const DefaultTeam := "devops"

  /** `d.get(key)` on an object that may itself be absent (`x.get(o, {}).get(key)`). */
  function Lookup(d: Option<Dict>, key: string): (r: Option<string>)
    ensures r.Some? <==> d.Some? && key in d.value
    ensures r.Some? ==> r.value == d.value[key]
  {
    match d
    case None => None
    case Some(m) => if key in m then Some(m[key]) else None
  }

  function Description(a: Alert): string
  {
    match Lookup(a.annotations, "description")
    case Some(text) => text
    case None => DefaultDescription
  }

  /** The SMS body sent for an alert. */
  function Message(a: Alert): (m: string)
    ensures |MessagePrefix| <= |m| && m[..|MessagePrefix|] == MessagePrefix
  {
    MessagePrefix + Description(a)
  }

  /** The message is the prefix followed by the alert's own description, or by
      the placeholder when the alert has no annotations or no description. */
  lemma MessageText(a: Alert)
    ensures a.annotations.Some? && "description" in a.annotations.value ==>
              Message(a) == "Alert: " + a.annotations.value["description"]
    ensures a.annotations.None? || "description" !in a.annotations.value ==>
              Message(a) == "Alert: No description provided"
  {
    if a.annotations.None? || "description" !in a.annotations.value {
      assert Description(a) == DefaultDescription;
    }
  }

  /** The value of the alert's `team` label, if the alert has one. */
  function TeamLabel(a: Alert): Option<string>
  {
    Lookup(a.labels, "team")
  }

  /** The handler falls back to the default team when the label is missing,
      empty, or not a key of the directory. */
  predicate UsesDefaultTeam(a: Alert, contacts: Contacts)
  {
    match TeamLabel(a)
    case None => true
    case Some(team) => team == "" || team !in contacts
  }

  /** The fallback is taken exactly when the alert has no labels, no team
      label, an empty one, or one that is not a key of the directory. */
  lemma FallbackCondition(a: Alert, contacts: Contacts)
    ensures UsesDefaultTeam(a, contacts) <==>
              || a.labels.None?
              || "team" !in a.labels.value
              || a.labels.value["team"] == ""
              || a.labels.value["team"] !in contacts
  {
  }

  function Phones(members: seq<Member>): (r: seq<string>)
    ensures |r| == |members|
    ensures forall i :: 0 <= i < |members| ==> r[i] == members[i].phone
  {
    seq(|members|, i requires 0 <= i < |members| => members[i].phone)
  }

  /** The phones of the fallback branch: every member of the default team in
      order and then the last member again. */
  function FallbackPhones(members: seq<Member>): (r: seq<string>)
    ensures members == [] ==> r == []
    ensures members != [] ==> |r| == |members| + 1 && r[|members|] == members[|members| - 1].phone
    ensures forall i :: 0 <= i < |members| ==> r[i] == members[i].phone
  {
    if members == [] then [] else Phones(members) + [members[|members| - 1].phone]
  }

  /** The phone numbers the handler sends an alert's message to, in order, or
      the error it raises before its first send.  Only the fallback branch
      sends: it sends to every member of the default team and then once more
      to the last of them. */
  function Recipients(a: Alert, contacts: Contacts): (r: Result<seq<string>, Error>)
    ensures !UsesDefaultTeam(a, contacts) ==> r == Ok([])
    ensures UsesDefaultTeam(a, contacts) && DefaultTeam !in contacts ==>
              r == Err(MissingDefaultTeam)
    ensures UsesDefaultTeam(a, contacts) && DefaultTeam in contacts && contacts[DefaultTeam] == [] ==>
              r == Err(UnboundMember)
    ensures UsesDefaultTeam(a, contacts) && DefaultTeam in contacts && contacts[DefaultTeam] != [] ==>
              var members := contacts[DefaultTeam];
              && r.Ok?
              && |r.value| == |members| + 1
              && (forall i :: 0 <= i < |members| ==> r.value[i] == members[i].phone)
              && r.value[|members|] == members[|members| - 1].phone
    ensures r.Ok? && r.value != [] ==> UsesDefaultTeam(a, contacts)
  {
    if !UsesDefaultTeam(a, contacts) then Ok([])
    else if DefaultTeam !in contacts then Err(MissingDefaultTeam)
    else
      var members := contacts[DefaultTeam];
      if members == [] then Err(UnboundMember)
      else Ok(FallbackPhones(members))
  }

  /** The fallback fan-out reaches the last member of the default team twice
      and every other member once. */
  lemma {:induction false} LastMemberSentTwice(a: Alert, contacts: Contacts)
    requires UsesDefaultTeam(a, contacts) && DefaultTeam in contacts && contacts[DefaultTeam] != []
    ensures Recipients(a, contacts).Ok?
    ensures var members := contacts[DefaultTeam];
            multiset(Recipients(a, contacts).value)
              == multiset(Phones(members)) + multiset{members[|members| - 1].phone}
  {
    var members := contacts[DefaultTeam];
    assert Recipients(a, contacts).value == Phones(members) + [members[|members| - 1].phone];
  }
}
