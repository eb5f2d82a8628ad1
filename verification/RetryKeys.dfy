/** Retained retry keys: what a repeated Create, MakeOffer or Cancel finds under the key it was first sent with, in
    front of the operations of OrderStore. Request hashes are taken as injective, so a payload stands for its hash. */
module RetryKeys {
  import opened Common
  import opened Orders
  import opened OrderStore
  import R = OrderRecords

  const RETENTION: int := 86_400 * SECOND

  datatype Method = CreateMethod | OfferMethod | CancelMethod

  datatype Payload =
    | CreatePayload(input: R.CreateInput)
    | OfferPayload(order: OrderId, credits: int)
    | CancelPayload(order: OrderId, reason: OrderText, revision: Option<int>)

  datatype Scope = Scope(caller: UserId, kind: Method, key: R.Key)

  // The resource an operation made: an order's workflow, one of its offers or one of its cancellations. Without an
  // expiry a key is kept as long as its order.
  datatype Kept = Kept(order: OrderId, item: nat, payload: Payload, expiresAt: Option<Time>)

  datatype Office = Office(rows: map<OrderId, R.Record>, keys: map<Scope, Kept>)

  datatype Named = Named(order: OrderId, item: nat)

  datatype Answer = Answer(office: Office, reply: Result<Named, Error>)

  predicate IsLive(kept: Kept, now: Time) {
    kept.expiresAt.Some? ==> now < kept.expiresAt.value
  }

  // Creation

  // o is a fresh identifier.
  function AdmitCreate(f: Office, o: OrderId, caller: UserId, key: R.Key, input: R.CreateInput, now: Time): Answer {
    match R.AdmitCreation(o, caller, input, now)
    case Err(e) => Answer(f, Err(e))
    case Ok(r) =>
      var kept := Kept(o, 0, CreatePayload(input), Some(now + RETENTION));
      Answer(Office(f.rows[o := r], f.keys[Scope(caller, CreateMethod, key) := kept]), Ok(Named(o, 0)))
  }

  // An expired key is forgotten only once its workflow is resolved, and for good even if the admission then fails.
  function CreateOnce(f: Office, o: OrderId, caller: R.Caller, key: R.Key, input: R.CreateInput, now: Time): Answer {
    var scope := Scope(caller.id, CreateMethod, key);
    if caller.suspended then Answer(f, Err(Forbidden))
    else if !R.IsCanonical(input) then Answer(f, Err(Invalid))
    else if scope !in f.keys then AdmitCreate(f, o, caller.id, key, input, now)
    else
      var kept := f.keys[scope];
      if kept.order !in f.rows || f.rows[kept.order].workflow.requester != caller.id then Answer(f, Err(Integrity))
      else if f.rows[kept.order].workflow.IsResolved() && !IsLive(kept, now) then
        AdmitCreate(f.(keys := f.keys - {scope}), o, caller.id, key, input, now)
      else if kept.payload != CreatePayload(input) then Answer(f, Err(AlreadyExists))
      else Answer(f, Ok(Named(kept.order, kept.item)))
  }

  // Proposals

  function Propose(f: Office, o: OrderId, caller: R.Caller, credits: int, key: R.Key, now: Time): Answer
    requires o in f.rows
  {
    match R.MakeOffer(f.rows[o], caller, credits, now)
    case Err(e) => Answer(f, Err(e))
    case Ok(r) =>
      var item := |f.rows[o].offers|;
      var kept := Kept(o, item, OfferPayload(o, credits), Some(now + RETENTION));
      Answer(Office(f.rows[o := r], f.keys[Scope(caller.id, OfferMethod, key) := kept]), Ok(Named(o, item)))
  }

  // An expired key still answers while its offer is being accepted.
  function OfferOnce(f: Office, o: OrderId, caller: R.Caller, credits: int, key: R.Key, now: Time): Answer {
    var scope := Scope(caller.id, OfferMethod, key);
    if caller.suspended then Answer(f, Err(Forbidden))
    else if credits <= 0 then Answer(f, Err(Invalid))
    else if o !in f.rows then Answer(f, Err(NotFound))
    else if f.rows[o].order.IsRequestedBy(Some(caller.id)) then Answer(f, Err(Forbidden))
    else if scope !in f.keys then Propose(f, o, caller, credits, key, now)
    else
      var kept := f.keys[scope];
      if kept.payload != OfferPayload(o, credits) then Answer(f, Err(AlreadyExists))
      else if kept.item >= |f.rows[o].offers| || f.rows[o].offers[kept.item].courier != caller.id then
        Answer(f, Err(Integrity))
      else if IsLive(kept, now) || f.rows[o].offers[kept.item].status == R.OfferAccepting then
        Answer(f, Ok(Named(o, kept.item)))
      else Propose(f, o, caller, credits, key, now)
  }

  // Cancellation

  // A hash stored without a confirmed revision also answers a retry that confirms one.
  predicate Accepts(stored: Payload, o: OrderId, reason: OrderText, revision: Option<int>) {
    stored == CancelPayload(o, reason, revision) || stored == CancelPayload(o, reason, None)
  }

  // The payload is compared before the order is even loaded. Without a key every call is a new one.
  function CancelOnce(f: Office, o: OrderId, caller: UserId, reason: OrderText, revision: Option<int>,
                      key: Option<R.Key>, now: Time): Answer {
    var kept :=
      if key.Some? && Scope(caller, CancelMethod, key.value) in f.keys
      then Some(f.keys[Scope(caller, CancelMethod, key.value)]) else None;
    if |reason| > 500 || (revision.Some? && revision.value <= 0) then Answer(f, Err(Invalid))
    else if kept.Some? && !Accepts(kept.value.payload, o, reason, revision) then Answer(f, Err(AlreadyExists))
    else if o !in f.rows then Answer(f, Err(NotFound))
    else if kept.Some? then
      var c := kept.value.item;
      if c >= |f.rows[o].cancellations| || f.rows[o].cancellations[c].caller != caller
         || f.rows[o].cancellations[c].reason != reason then Answer(f, Err(Integrity))
      else Answer(f, Ok(Named(o, c)))
    else
      match R.CancelOrder(f.rows[o], caller, reason, revision, now)
      case Err(e) => Answer(f, Err(e))
      case Ok(a) =>
        var made := Kept(o, a.operation, CancelPayload(o, reason, revision), None);
        var keys := if key.Some? then f.keys[Scope(caller, CancelMethod, key.value) := made] else f.keys;
        Answer(Office(f.rows[o := a.record], keys), Ok(Named(o, a.operation)))
  }

  // In place

  class Desk {
    const store: Store
    var keys: map<Scope, Kept>

    function Contents(): Office
      reads this, store
    {
      Office(store.rows, keys)
    }

    constructor (store: Store)
      ensures this.store == store && keys == map[]
    {
      this.store := store;
      keys := map[];
    }

    // A new order, with its key in the same commit.
    method Admit(o: OrderId, caller: UserId, key: R.Key, input: R.CreateInput, now: Time)
      returns (reply: Result<Named, Error>)
      requires store.Valid() && o !in store.rows
      modifies this`keys, store`rows
      ensures store.Valid()
      ensures Answer(Contents(), reply) == AdmitCreate(old(Contents()), o, caller, key, input, now)
    {
      var err := store.AdmitCreation(o, caller, input, now);
      if err.Some? {
        return Err(err.value);
      }
      keys := keys[Scope(caller, CreateMethod, key) := Kept(o, 0, CreatePayload(input), Some(now + RETENTION))];
      reply := Ok(Named(o, 0));
    }

    method Create(o: OrderId, caller: R.Caller, key: R.Key, input: R.CreateInput, now: Time)
      returns (reply: Result<Named, Error>)
      requires store.Valid() && o !in store.rows
      modifies this`keys, store`rows
      ensures store.Valid()
      ensures Answer(Contents(), reply) == CreateOnce(old(Contents()), o, caller, key, input, now)
    {
      if caller.suspended {
        return Err(Forbidden);
      }
      if !R.IsCanonical(input) {
        return Err(Invalid);
      }
      var scope := Scope(caller.id, CreateMethod, key);
      if scope in keys {
        var kept := keys[scope];
        if kept.order !in store.rows || store.rows[kept.order].workflow.requester != caller.id {
          return Err(Integrity);
        }
        if !store.rows[kept.order].workflow.IsResolved() || IsLive(kept, now) {
          if kept.payload != CreatePayload(input) {
            return Err(AlreadyExists);
          }
          return Ok(Named(kept.order, kept.item));
        }
        keys := keys - {scope};
      }
      reply := Admit(o, caller.id, key, input, now);
    }

    method MakeOffer(o: OrderId, caller: R.Caller, credits: int, key: R.Key, now: Time)
      returns (reply: Result<Named, Error>)
      requires store.Valid()
      modifies this`keys, store`rows
      ensures store.Valid()
      ensures Answer(Contents(), reply) == OfferOnce(old(Contents()), o, caller, credits, key, now)
    {
      hide R.MakeOffer;
      if caller.suspended {
        return Err(Forbidden);
      }
      if credits <= 0 {
        return Err(Invalid);
      }
      if o !in store.rows {
        return Err(NotFound);
      }
      var r := store.rows[o];
      if r.order.IsRequestedBy(Some(caller.id)) {
        return Err(Forbidden);
      }
      var scope := Scope(caller.id, OfferMethod, key);
      if scope in keys {
        var kept := keys[scope];
        if kept.payload != OfferPayload(o, credits) {
          return Err(AlreadyExists);
        }
        if kept.item >= |r.offers| || r.offers[kept.item].courier != caller.id {
          return Err(Integrity);
        }
        if IsLive(kept, now) || r.offers[kept.item].status == R.OfferAccepting {
          return Ok(Named(o, kept.item));
        }
      }
      var err := store.MakeOffer(o, caller, credits, now);
      if err.Some? {
        return Err(err.value);
      }
      keys := keys[scope := Kept(o, |r.offers|, OfferPayload(o, credits), Some(now + RETENTION))];
      reply := Ok(Named(o, |r.offers|));
    }

    method Cancel(o: OrderId, caller: UserId, reason: OrderText, revision: Option<int>, key: Option<R.Key>, now: Time)
      returns (reply: Result<Named, Error>)
      requires store.Valid()
      modifies this`keys, store`rows
      ensures store.Valid()
      ensures Answer(Contents(), reply) == CancelOnce(old(Contents()), o, caller, reason, revision, key, now)
    {
      hide R.CancelOrder;
      if |reason| > 500 || (revision.Some? && revision.value <= 0) {
        return Err(Invalid);
      }
      if key.Some? && Scope(caller, CancelMethod, key.value) in keys {
        var kept := keys[Scope(caller, CancelMethod, key.value)];
        if !Accepts(kept.payload, o, reason, revision) {
          return Err(AlreadyExists);
        }
        if o !in store.rows {
          return Err(NotFound);
        }
        var made := store.rows[o].cancellations;
        if kept.item >= |made| || made[kept.item].caller != caller || made[kept.item].reason != reason {
          return Err(Integrity);
        }
        return Ok(Named(o, kept.item));
      }
      if o !in store.rows {
        return Err(NotFound);
      }
      var done := store.Cancel(o, caller, reason, revision, now);
      if done.Err? {
        return Err(done.error);
      }
      if key.Some? {
        keys := keys[Scope(caller, CancelMethod, key.value) :=
                       Kept(o, done.value, CancelPayload(o, reason, revision), None)];
      }
      reply := Ok(Named(o, done.value));
    }
  }
}
