/** Who is notified when two actors touch, and the forwarding of a player's
    action to an actor (InteractionHandler). */
module Interaction {
  import opened Common
  import opened Entities

  /** A `touched.touchedBy(toucher)` notification. */
  datatype Touch = Touch(touched: Entity, toucher: Entity)

  /** handleTouch(entity, other): an actor never touches itself; a player
      touching a non-player makes the non-player the one notified; two players
      notify nobody; otherwise `other` is notified by `entity`. */
  function HandleTouch(entity: Entity, other: Entity): (t: Option<Touch>)
    ensures t.Some? ==> t.value.touched != t.value.toucher
    ensures t.Some? ==> {t.value.touched, t.value.toucher} == {entity, other}
    ensures t.Some? && t.value.touched == entity ==> other.kind.IsPlayer() && !entity.kind.IsPlayer()
    ensures t.Some? && t.value.touched == other ==> !other.kind.IsPlayer()
    ensures t == None <==> entity == other || (entity.kind.IsPlayer() && other.kind.IsPlayer())
  {
    if entity == other then None
    else if other.kind.IsPlayer() then
      (if !entity.kind.IsPlayer() then Some(Touch(entity, other)) else None)
    else Some(Touch(other, entity))
  }

  /** An `entity.interact(player, item, dir)` call. */
  datatype InteractCall = InteractCall(target: Entity, player: Entity)

  /** handleInteraction: the one and only effect is a single interact call on
      the entity on behalf of the player; its answer is not used. */
  function HandleInteraction(entity: Entity, player: Entity): (calls: seq<InteractCall>)
    ensures |calls| == 1
    ensures forall c :: c in calls ==> c.target == entity && c.player == player
  {
    [InteractCall(entity, player)]
  }
}
