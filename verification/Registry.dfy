/** The connection's finite map from accepted FlowIds to Core flows. */
module Registry {
  import opened Basics
  import opened Wire
  import opened Delivery
  import opened Core
  import opened DeliveryEndpoints

  datatype Association = Unbound | BoundOutbound | BoundInbound

  datatype RegisteredFlow = RegisteredFlow(key: FlowKey, mode: Mode, maxMessageBytes: nonzero, association: Option<Association>)

  datatype RegistryError =
    | CapacityExceeded
    | DuplicateFlowId
    | UnknownFlowId
    | UnknownCoreFlow
    | FlowNotReliable
    | OutboundMessageLimitExceedsProfile
    | InboundMessageLimitCannotSupportProfile
    | WrongFlowSide
    | WrongFlowDirection
    | AlreadyBound

  type Flows = map<FlowId, RegisteredFlow>

  function NewAssociation(mode: Mode): Option<Association> {
    if mode.ReliableOrdered? then Some(Unbound) else None
  }

  /** The side whose FlowIds a flow of this direction uses, seen from `local`. */
  function OwnerSide(local: Side, direction: Direction): Side {
    if direction.Outbound? then local else Opposite(local)
  }

  function Register(reg: Flows, local: Side, capacity: nat, ep: Endpoint, id: FlowId, key: FlowKey, stableMax: nonzero)
    : Result<Flows, RegistryError>
  {
    if id in reg then Err(DuplicateFlowId)
    else if |reg| >= capacity then Err(CapacityExceeded)
    else if key !in ep.flows then Err(UnknownCoreFlow)
    else if key.direction.Outbound? && ep.flows[key].policy.maxMessageBytes > stableMax then Err(OutboundMessageLimitExceedsProfile)
    else if key.direction.Inbound? && ep.flows[key].policy.maxMessageBytes < stableMax then Err(InboundMessageLimitCannotSupportProfile)
    else if SideOf(id) != OwnerSide(local, key.direction) then Err(WrongFlowSide)
    else Ok(reg[id := RegisteredFlow(key, ep.flows[key].mode, stableMax, NewAssociation(ep.flows[key].mode))])
  }

  function Bind(reg: Flows, id: FlowId, direction: Direction): Result<Flows, RegistryError> {
    if id !in reg then Err(UnknownFlowId)
    else if !reg[id].mode.ReliableOrdered? then Err(FlowNotReliable)
    else if reg[id].key.direction != direction then Err(WrongFlowDirection)
    else match reg[id].association
      case Some(Unbound) =>
        Ok(reg[id := reg[id].(association := Some(if direction.Outbound? then BoundOutbound else BoundInbound))])
      case Some(_) => Err(AlreadyBound)
      case None => Err(FlowNotReliable)
  }

  function ActiveIds(reg: Flows, direction: Direction): set<FlowId> {
    set id | id in reg && reg[id].key.direction == direction
  }

  lemma ActiveIdsSplit(reg: Flows)
    ensures |reg| == |ActiveIds(reg, Outbound)| + |ActiveIds(reg, Inbound)|
  {
    assert reg.Keys == ActiveIds(reg, Outbound) + ActiveIds(reg, Inbound);
    assert ActiveIds(reg, Outbound) !! ActiveIds(reg, Inbound);
  }

  class AcceptedFlowRegistry {
    const localSide: Side
    const capacity: nat
    var flows: Flows

    constructor (localSide: Side, capacity: nat)
      ensures this.localSide == localSide && this.capacity == capacity && flows == map[]
    {
      this.localSide := localSide;
      this.capacity := capacity;
      flows := map[];
    }

    method RegisterConsumed(endpoint: DeliveryEndpoint, id: FlowId, key: FlowKey, stableMax: nonzero) returns (r: Result<(), RegistryError>)
      requires endpoint.Valid()
      modifies this
      ensures match Register(old(flows), localSide, capacity, endpoint.model, id, key, stableMax)
              case Err(e) => r == Err(e) && flows == old(flows)
              case Ok(reg) => r == Ok(()) && flows == reg
    {
      if id in flows {
        return Err(DuplicateFlowId);
      }
      if |flows| >= capacity {
        return Err(CapacityExceeded);
      }
      var contract := endpoint.FlowContract(key);
      match contract {
        case None => return Err(UnknownCoreFlow);
        case Some((mode, policy)) =>
          if key.direction.Outbound? && policy.maxMessageBytes > stableMax {
            return Err(OutboundMessageLimitExceedsProfile);
          }
          if key.direction.Inbound? && policy.maxMessageBytes < stableMax {
            return Err(InboundMessageLimitCannotSupportProfile);
          }
          if SideOf(id) != OwnerSide(localSide, key.direction) {
            return Err(WrongFlowSide);
          }
          flows := flows[id := RegisteredFlow(key, mode, stableMax, NewAssociation(mode))];
          return Ok(());
      }
    }

    method AssociateStream(id: FlowId, direction: Direction) returns (r: Result<RegisteredFlow, RegistryError>)
      modifies this
      ensures match Bind(old(flows), id, direction)
              case Err(e) => r == Err(e) && flows == old(flows)
              case Ok(reg) => flows == reg && id in reg && r == Ok(reg[id])
    {
      if id !in flows {
        return Err(UnknownFlowId);
      }
      var flow := flows[id];
      if !flow.mode.ReliableOrdered? {
        return Err(FlowNotReliable);
      }
      if flow.key.direction != direction {
        return Err(WrongFlowDirection);
      }
      match flow.association {
        case Some(Unbound) =>
          flow := flow.(association := Some(if direction.Outbound? then BoundOutbound else BoundInbound));
          flows := flows[id := flow];
          return Ok(flow);
        case Some(_) => return Err(AlreadyBound);
        case None => return Err(FlowNotReliable);
      }
    }

    method Release(id: FlowId)
      modifies this
      ensures flows == old(flows) - {id}
    {
      flows := flows - {id};
    }
  }
}
