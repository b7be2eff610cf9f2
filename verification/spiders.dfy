/** The patrolling enemy: it walks at a fixed speed and turns around when
    its body touches, or is blocked by, something on the side it walks
    toward. The random choice between the 'spider' and 'dozer' sprite sheets
    is cosmetic and is not part of the record. */
module Spiders {

  const Speed := 100

  /** Side flags of a physics body's `touching` record that the rules read. */
  datatype Touching = Touching(up: bool, down: bool, left: bool, right: bool)

  /** Side flags of a physics body's `blocked` record (contact with the world bounds). */
  datatype Blocked = Blocked(left: bool, right: bool)

  const NoTouch := Touching(false, false, false, false)
  const NoBlock := Blocked(false, false)

  datatype Spider = Spider(
    vx: int,
    facing: int,            // the sprite's horizontal scale
    bodyEnabled: bool,
    touching: Touching,     // this frame's contacts, from the physics collaborator
    wasTouching: Touching,  // the previous frame's contacts
    blocked: Blocked
  )

  /** The patrol invariant: walking at full speed and facing the way it walks. */
  predicate Patrolling(s: Spider) {
    (s.vx == Speed && s.facing == 1) || (s.vx == -Speed && s.facing == -1)
  }

  /** The constructor: a new spider walks right. */
  function NewSpider(): (s: Spider)
    ensures Patrolling(s) && s.vx > 0 && s.bodyEnabled
  {
    Spider(Speed, 1, true, NoTouch, NoTouch, NoBlock)
  }

  predicate RightContact(s: Spider) {
    s.touching.right || s.blocked.right
  }

  predicate LeftContact(s: Spider) {
    s.touching.left || s.blocked.left
  }

  /** `update()`: a contact on the right wins over one on the left; without
      any contact the spider keeps going. */
  function Update(s: Spider): (r: Spider)
    ensures RightContact(s) ==> r.vx == -Speed && r.facing == -1
    ensures !RightContact(s) && LeftContact(s) ==> r.vx == Speed && r.facing == 1
    ensures !RightContact(s) && !LeftContact(s) ==> r == s
    ensures r == s.(vx := r.vx, facing := r.facing)
  {
    if RightContact(s) then s.(vx := -Speed, facing := -1)
    else if LeftContact(s) then s.(vx := Speed, facing := 1)
    else s
  }

  /** `die()`: the body leaves physics while the death animation plays. */
  function Die(s: Spider): (r: Spider)
    ensures !r.bodyEnabled
    ensures r == s.(bodyEnabled := false)
    ensures Patrolling(s) ==> Patrolling(r)
  {
    s.(bodyEnabled := false)
  }

  /** Undoes the contact flags an overlap test wrote into the spider's body,
      putting back those of the previous frame. */
  function RestoreTouching(s: Spider): (r: Spider)
    ensures r.touching == s.wasTouching
    ensures r == s.(touching := s.wasTouching)
  {
    s.(touching := s.wasTouching)
  }

  /** The physics collaborator's per-frame step as the rules see it: the old
      contacts become `wasTouching` and fresh ones are reported. */
  function Sense(s: Spider, t: Touching, b: Blocked): (r: Spider)
    ensures r.wasTouching == s.touching && r.touching == t && r.blocked == b
    ensures r.vx == s.vx && r.facing == s.facing && r.bodyEnabled == s.bodyEnabled
  {
    s.(wasTouching := s.touching, touching := t, blocked := b)
  }

  /** One contact report per frame. */
  datatype Contact = Contact(touching: Touching, blocked: Blocked)

  /** The spider after a run of frames: contacts are reported, then it updates. */
  function Patrol(s: Spider, trace: seq<Contact>): (r: Spider)
    decreases |trace|
  {
    if |trace| == 0 then s
    else Patrol(Update(Sense(s, trace[0].touching, trace[0].blocked)), trace[1..])
  }

  predicate Quiet(c: Contact) {
    !c.touching.left && !c.touching.right && !c.blocked.left && !c.blocked.right
  }

  /** A patrolling spider stays patrolling over any run of frames: its
      velocity is always plus or minus `Speed`, and it faces where it walks. */
  lemma {:induction false} PatrolKeepsPatrolling(s: Spider, trace: seq<Contact>)
    requires Patrolling(s)
    ensures Patrolling(Patrol(s, trace))
    decreases |trace|
  {
    if |trace| > 0 {
      PatrolKeepsPatrolling(Update(Sense(s, trace[0].touching, trace[0].blocked)), trace[1..]);
    }
  }

  /** Direction changes only on wall contact: a run of frames without any
      side contact leaves the velocity and facing as they were. */
  lemma {:induction false} QuietPatrolKeepsDirection(s: Spider, trace: seq<Contact>)
    requires forall k :: 0 <= k < |trace| ==> Quiet(trace[k])
    ensures Patrol(s, trace).vx == s.vx && Patrol(s, trace).facing == s.facing
    decreases |trace|
  {
    if |trace| > 0 {
      assert Quiet(trace[0]);
      assert forall k :: 0 <= k < |trace[1..]| ==> trace[1..][k] == trace[k + 1];
      QuietPatrolKeepsDirection(Update(Sense(s, trace[0].touching, trace[0].blocked)), trace[1..]);
    }
  }

  /** After a right contact the spider walks left, after a left-only contact
      it walks right, whatever its direction before. */
  lemma ContactDecidesDirection(s: Spider)
    ensures RightContact(s) ==> Update(s).vx < 0
    ensures !RightContact(s) && LeftContact(s) ==> Update(s).vx > 0
  {
  }

  /** Updating twice on the same contacts is the same as once. */
  lemma UpdateIdempotent(s: Spider)
    ensures Update(Update(s)) == Update(s)
  {
  }
}
