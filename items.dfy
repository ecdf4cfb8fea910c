/** The items a player can hold while interacting with a tile, and the two
    payments a tool action asks for (stamina from the player, durability
    from the tool). The Item, ToolItem and Player classes are not part of
    this model. */
module Items {

  datatype ToolType = Shovel | Hoe | Pickaxe | Axe | Sword | Bow | Claymore | FishingRod

  datatype Item =
    | Tool(kind: ToolType, level: int)   // a ToolItem of that type and level
    | PowerGlove                         // the PowerGloveItem
    | OtherItem                          // anything else

  /** A payment the action asked for. */
  datatype Charge = Stamina(cost: int) | Durability

  datatype Paid = Paid(ok: bool, charges: seq<Charge>)

  /** `player.payStamina(cost) && tool.payDurability()`: the tool is only
      charged once the player has paid. `staminaOk(c)` is the player's answer
      to a charge of c and `durabilityOk` the tool's answer. */
  function Pay(cost: int, staminaOk: int -> bool, durabilityOk: bool): (p: Paid)
    ensures p.ok <==> staminaOk(cost) && durabilityOk
    ensures |p.charges| >= 1 && p.charges[0] == Stamina(cost)
    ensures Durability in p.charges <==> staminaOk(cost)
  {
    if staminaOk(cost) then Paid(durabilityOk, [Stamina(cost), Durability]) else Paid(false, [Stamina(cost)])
  }

  /** `item instanceof ToolItem && tool.type == kind && player.payStamina(base
      - tool.level) && tool.payDurability()`: a tool action of that kind, at a
      stamina cost that falls as the tool level rises. Nothing is asked of
      any other item. */
  function ToolAction(item: Item, kind: ToolType, base: int, staminaOk: int -> bool, durabilityOk: bool): (p: Paid)
    ensures p.ok <==> item.Tool? && item.kind == kind && staminaOk(base - item.level) && durabilityOk
    ensures !(item.Tool? && item.kind == kind) ==> p.charges == []
    ensures item.Tool? && item.kind == kind ==> p.charges != [] && p.charges[0] == Stamina(base - item.level)
  {
    if item.Tool? && item.kind == kind then Pay(base - item.level, staminaOk, durabilityOk) else Paid(false, [])
  }
}
