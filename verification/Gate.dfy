/** The message gate: decisions, focus bookkeeping and lazy expiry (gate.go). */
module Gate {
  import opened Common

  datatype Action = Trigger | Wait | Ignore | Reject

  datatype Reason =
    | PrivateMessage | ExplicitMention | Command | SelfMessage | InvalidEvent | EmptyText | GroupDisabled
    | GroupNoTrigger | SoftDisabled | SoftShadow | SoftTrigger | SoftCooldown | FocusConflict

  datatype Decision = Decision(action: Action, reason: Reason, hard: bool, shadow: bool)

  datatype SoftMode = Off | Shadow | On

  /** What the text analysis finds in a message. `management` matters for commands only. */
  datatype Message = Message(sender: string, conversationID: string, messageID: string,
                             hasContent: bool, group: bool, command: bool, management: bool, mentioned: bool)

  /** One evaluation; `enabled` and `mode` are the group's settings at that time. */
  datatype Call = Call(event: Message, now: int, commit: bool, enabled: bool, mode: SoftMode)

  datatype Behavior = Behavior(userID: string, focusTTL: int, softCooldown: int)

  datatype Focus = Focus(sender: string, expiresAt: int, lastSoftAt: Option<int>)

  type Focuses = map<string, Focus>

  function Plain(action: Action, reason: Reason): Decision { Decision(action, reason, false, false) }

  /** The decisions that no focus influences. */
  function Early(b: Behavior, c: Call): Option<Decision> {
    var e := c.event;
    if e.sender == "" || e.conversationID == "" || e.messageID == "" then Some(Plain(Reject, InvalidEvent))
    else if e.sender == b.userID then Some(Plain(Ignore, SelfMessage))
    else if !e.hasContent then Some(Plain(Ignore, EmptyText))
    else if !e.group then Some(Decision(Trigger, PrivateMessage, true, false))
    else if !(e.command && e.management) && !c.enabled then Some(Plain(Ignore, GroupDisabled))
    else if e.command then Some(Decision(Trigger, Command, true, false))
    else if e.mentioned then Some(Decision(Trigger, ExplicitMention, true, false))
    else if c.mode == Off then Some(Plain(Ignore, SoftDisabled))
    else None
  }

  /** A hard trigger in a group takes the focus. */
  predicate TakesFocus(d: Decision) { d.reason == Command || d.reason == ExplicitMention }

  function Unexpired(m: Focuses, now: int): Focuses {
    map k | k in m && now < m[k].expiresAt :: m[k]
  }

  function TakeFocus(m: Focuses, b: Behavior, e: Message, now: int): Focuses {
    if b.focusTTL <= 0 then m else
      var last := if e.conversationID in m && m[e.conversationID].sender == e.sender then m[e.conversationID].lastSoftAt else None;
      Unexpired(m[e.conversationID := Focus(e.sender, now + b.focusTTL, last)], now)
  }

  /** A soft message meets the live focus of its conversation. */
  function Soft(b: Behavior, c: Call, f: Focus): Decision {
    if f.sender != c.event.sender then Plain(Wait, FocusConflict)
    else if c.mode == Shadow then Decision(Wait, SoftShadow, false, true)
    else if b.softCooldown > 0 && f.lastSoftAt.Some? && c.now - f.lastSoftAt.value < b.softCooldown
    then Plain(Wait, SoftCooldown)
    else Plain(Trigger, SoftTrigger)
  }

  /** The code's evaluation: an expired focus goes when a soft message meets it, or when someone takes a focus. */
  function Evaluate(m: Focuses, b: Behavior, c: Call): (Focuses, Decision) {
    var k := c.event.conversationID;
    match Early(b, c)
    case Some(d) => (if TakesFocus(d) && c.commit then TakeFocus(m, b, c.event, c.now) else m, d)
    case None =>
      if k !in m || m[k].expiresAt <= c.now then (m - {k}, Plain(Ignore, GroupNoTrigger))
      else
        var d := Soft(b, c, m[k]);
        (if d.reason == SoftTrigger && c.commit then m[k := Focus(m[k].sender, c.now + b.focusTTL, Some(c.now))] else m, d)
  }

  /** The simple gate: expired focuses do not exist, and a preview changes nothing. */
  function Ideal(m: Focuses, b: Behavior, c: Call): (Focuses, Decision) {
    var live, k := Unexpired(m, c.now), c.event.conversationID;
    var d := match Early(b, c)
             case Some(d) => d
             case None => if k in live then Soft(b, c, live[k]) else Plain(Ignore, GroupNoTrigger);
    var m' := if TakesFocus(d) then TakeFocus(live, b, c.event, c.now)
              else if d.reason == SoftTrigger && k in live then live[k := Focus(c.event.sender, c.now + b.focusTTL, Some(c.now))]
              else live;
    (if c.commit then m' else m, d)
  }

  predicate ValidDecision(d: Decision) {
    match d.reason
    case PrivateMessage | ExplicitMention | Command => d.action == Trigger && d.hard && !d.shadow
    case SoftTrigger => d.action == Trigger && !d.hard && !d.shadow
    case SoftShadow => d.action == Wait && !d.hard && d.shadow
    case SoftCooldown | FocusConflict => d.action == Wait && !d.hard && !d.shadow
    case SelfMessage | EmptyText | GroupDisabled | GroupNoTrigger | SoftDisabled => d.action == Ignore && !d.hard && !d.shadow
    case InvalidEvent => d.action == Reject && !d.hard && !d.shadow
  }

  class MessageGate {
    const userID: string
    var focuses: Focuses

    constructor (userID: string)
      ensures focuses == map[] && this.userID == userID
    {
      this.userID := userID;
      focuses := map[];
    }

    method Assess(c: Call, b: Behavior) returns (d: Decision)
      requires b.userID == userID
      modifies this`focuses
      ensures (focuses, d) == Evaluate(old(focuses), b, c)
      ensures ValidDecision(d)
    {
      var e, k := c.event, c.event.conversationID;
      if e.sender == "" || k == "" || e.messageID == "" { return Plain(Reject, InvalidEvent); }
      if e.sender == userID { return Plain(Ignore, SelfMessage); }
      if !e.hasContent { return Plain(Ignore, EmptyText); }
      if !e.group { return Decision(Trigger, PrivateMessage, true, false); }
      if !(e.command && e.management) && !c.enabled { return Plain(Ignore, GroupDisabled); }
      if e.command {
        if c.commit { FocusOn(e, b, c.now); }
        return Decision(Trigger, Command, true, false);
      }
      if e.mentioned {
        if c.commit { FocusOn(e, b, c.now); }
        return Decision(Trigger, ExplicitMention, true, false);
      }
      if c.mode == Off { return Plain(Ignore, SoftDisabled); }
      if k !in focuses || focuses[k].expiresAt <= c.now {
        focuses := focuses - {k};
        return Plain(Ignore, GroupNoTrigger);
      }
      var focus := focuses[k];
      if focus.sender != e.sender { return Plain(Wait, FocusConflict); }
      if c.mode == Shadow { return Decision(Wait, SoftShadow, false, true); }
      if b.softCooldown > 0 && focus.lastSoftAt.Some? && c.now - focus.lastSoftAt.value < b.softCooldown {
        return Plain(Wait, SoftCooldown);
      }
      if c.commit {
        focuses := focuses[k := Focus(focus.sender, c.now + b.focusTTL, Some(c.now))];
      }
      d := Plain(Trigger, SoftTrigger);
    }

    method FocusOn(e: Message, b: Behavior, now: int)
      modifies this`focuses
      ensures focuses == TakeFocus(old(focuses), b, e, now)
    {
      if b.focusTTL <= 0 { return; }
      var last := None;
      if e.conversationID in focuses && focuses[e.conversationID].sender == e.sender {
        last := focuses[e.conversationID].lastSoftAt;
      }
      focuses := focuses[e.conversationID := Focus(e.sender, now + b.focusTTL, last)];
      ghost var all := focuses;
      var rest := focuses.Keys;
      while rest != {}
        invariant rest <= all.Keys
        invariant focuses.Keys <= all.Keys && forall k :: k in focuses ==> focuses[k] == all[k]
        invariant forall k :: k in all ==> (k in focuses <==> k in rest || now < all[k].expiresAt)
        decreases rest
      {
        var k :| k in rest;
        if focuses[k].expiresAt <= now { focuses := focuses - {k}; }
        rest := rest - {k};
      }
    }
  }
}
