/** What the message gate answers and remembers, told from the message, the settings and the stored focus (gate.go). */
module GateDecisions {
  import opened Common
  import opened Gate

  predicate Foreign(b: Behavior, e: Message) {
    e.sender != "" && e.conversationID != "" && e.messageID != "" && e.sender != b.userID
  }

  /** A message with content from somebody else, in a group. */
  predicate InGroup(b: Behavior, e: Message) { Foreign(b, e) && e.hasContent && e.group }

  /** A group message that only the focus of its conversation can make a trigger. */
  predicate IsSoft(b: Behavior, c: Call) {
    InGroup(b, c.event) && c.enabled && !c.event.command && !c.event.mentioned && c.mode != Off
  }

  predicate IsLive(m: Focuses, c: Call) {
    c.event.conversationID in m && c.now < m[c.event.conversationID].expiresAt
  }

  predicate Cooling(b: Behavior, c: Call, f: Focus) {
    b.softCooldown > 0 && f.lastSoftAt.Some? && c.now < f.lastSoftAt.value + b.softCooldown
  }

  // ---- Decisions ----

  /** Messages that are malformed, the bot's own or empty never trigger; private ones always do. */
  lemma OutsideGroupsExactly(m: Focuses, b: Behavior, c: Call)
    ensures var e, reason := c.event, Evaluate(m, b, c).1.reason;
      && (reason == InvalidEvent <==> e.sender == "" || e.conversationID == "" || e.messageID == "")
      && (reason == SelfMessage <==> e.conversationID != "" && e.messageID != "" && e.sender != "" && e.sender == b.userID)
      && (reason == EmptyText <==> Foreign(b, e) && !e.hasContent)
      && (reason == PrivateMessage <==> Foreign(b, e) && e.hasContent && !e.group)
  {
  }

  /** In a group a management command triggers whatever the settings; other commands and mentions need the group enabled. */
  lemma HardDecisionsExactly(m: Focuses, b: Behavior, c: Call)
    ensures var e, reason := c.event, Evaluate(m, b, c).1.reason;
      && (reason == Command <==> InGroup(b, e) && e.command && (e.management || c.enabled))
      && (reason == GroupDisabled <==> InGroup(b, e) && !c.enabled && !(e.command && e.management))
      && (reason == ExplicitMention <==> InGroup(b, e) && c.enabled && !e.command && e.mentioned)
      && (reason == SoftDisabled <==> InGroup(b, e) && c.enabled && !e.command && !e.mentioned && c.mode == Off)
  {
  }

  /** A soft message triggers only for the live focus's own sender, outside shadow mode, once the cooldown is over. */
  lemma SoftDecisionsExactly(m: Focuses, b: Behavior, c: Call)
    ensures var reason, live := Evaluate(m, b, c).1.reason, IsSoft(b, c) && IsLive(m, c);
      && (reason == GroupNoTrigger <==> IsSoft(b, c) && !IsLive(m, c))
      && (reason == FocusConflict <==> live && m[c.event.conversationID].sender != c.event.sender)
      && (reason == SoftShadow <==> live && m[c.event.conversationID].sender == c.event.sender && c.mode == Shadow)
      && (reason == SoftCooldown <==>
            live && m[c.event.conversationID].sender == c.event.sender && c.mode == On && Cooling(b, c, m[c.event.conversationID]))
      && (reason == SoftTrigger <==>
            live && m[c.event.conversationID].sender == c.event.sender && c.mode == On && !Cooling(b, c, m[c.event.conversationID]))
  {
  }

  /** The action follows from the reason; only shadow mode marks a decision as one. */
  lemma ActionsExactly(m: Focuses, b: Behavior, c: Call)
    ensures var d := Evaluate(m, b, c).1;
      && (d.action == Trigger <==> d.reason in {PrivateMessage, Command, ExplicitMention, SoftTrigger})
      && (d.action == Wait <==> d.reason in {FocusConflict, SoftShadow, SoftCooldown})
      && (d.action == Reject <==> d.reason == InvalidEvent)
      && (d.hard <==> d.action == Trigger && d.reason != SoftTrigger)
      && (d.shadow <==> d.reason == SoftShadow)
  {
  }

  // ---- Memory ----

  /** A preview forgets at most the expired focus of its own conversation. */
  lemma PreviewChangesNoFocus(m: Focuses, b: Behavior, c: Call)
    requires !c.commit
    ensures var m' := Evaluate(m, b, c).0;
      && m'.Keys <= m.Keys && (forall k :: k in m' ==> m'[k] == m[k])
      && (forall k :: k in m && k !in m' ==> k == c.event.conversationID && m[k].expiresAt <= c.now)
  {
  }

  /** A committed group trigger gives its sender the focus for a whole lifetime and stamps it when it is soft. */
  lemma TriggersTakeFocus(m: Focuses, b: Behavior, c: Call)
    requires c.commit && b.focusTTL > 0 && Evaluate(m, b, c).1.reason in {Command, ExplicitMention, SoftTrigger}
    ensures var m', k := Evaluate(m, b, c).0, c.event.conversationID;
      var stamp := if k in m && m[k].sender == c.event.sender then m[k].lastSoftAt else None;
      && k in m' && m'[k].sender == c.event.sender && m'[k].expiresAt == c.now + b.focusTTL
      && m'[k].lastSoftAt == (if Evaluate(m, b, c).1.reason == SoftTrigger then Some(c.now) else stamp)
      && (forall x :: x in m' && x != k ==> x in m && m'[x] == m[x])
      && (forall x :: x in m && x !in m' ==> m[x].expiresAt <= c.now)
  {
  }

  /** Nothing else sets a focus or drops a live one; without a lifetime no command or mention does. */
  lemma OthersLeaveFocus(m: Focuses, b: Behavior, c: Call)
    requires Evaluate(m, b, c).1.reason !in (if b.focusTTL > 0 then {Command, ExplicitMention, SoftTrigger} else {SoftTrigger})
    ensures var m' := Evaluate(m, b, c).0;
      && (forall k :: k in m' ==> k in m && m'[k] == m[k])
      && (forall k :: k in m && k !in m' ==> m[k].expiresAt <= c.now)
  {
  }
}
