/** The request-shaping parts of src/marvelous_client.py: the authentication
    headers, the payloads of `create_event` and `create_coupon`, and the
    `_prepare_*_for_update` helpers that flatten nested objects to their ids in
    place. The HTTP calls themselves are not modelled. */
module MarvelousClient {
  import opened Wrappers
  import opened Json

  // ---------------------------------------------------------------- headers

  /** `_get_auth_headers`: Err stands for `MarvelousAuthError`. */
  function AuthHeaders(authToken: Option<string>): (r: Result<map<string, string>, string>)
    ensures r.Err? <==> authToken.None? || authToken.value == ""
    ensures r.Ok? ==> r.value.Keys == {"Authorization", "Content-Type"}
    ensures r.Ok? ==> r.value["Content-Type"] == "application/json"
    ensures r.Ok? ==> |r.value["Authorization"]| > 6 && r.value["Authorization"][6..] == authToken.value
  {
    if authToken.None? || authToken.value == "" then Err("No auth token available. Call authenticate() first.")
    else Ok(map["Authorization" := "Token " + authToken.value, "Content-Type" := "application/json"])
  }

  /** Two clients with different tokens send different headers. */
  lemma AuthHeadersInjective(t1: Option<string>, t2: Option<string>)
    requires AuthHeaders(t1).Ok? && AuthHeaders(t2).Ok? && AuthHeaders(t1) == AuthHeaders(t2)
    ensures t1 == t2
  {
    assert AuthHeaders(t1).value["Authorization"][6..] == t1.value;
  }

  // ---------------------------------------------------------------- payloads

  /** The positional arguments of `create_event`; `eventType` is
      "collaborative_group_event" unless the caller names another. */
  datatype EventArgs = EventArgs(
    eventName: string,
    eventStart: string,
    eventEnd: string,
    date: string,
    startTime: string,
    durationHours: int,
    durationMinutes: int,
    instructors: seq<int>,
    products: seq<int>,
    eventType: string,
    description: Option<string>)

  const DefaultEventType := "collaborative_group_event"

  function IntList(xs: seq<int>): (r: Json)
    ensures r.JList? && |r.items| == |xs| && forall i :: 0 <= i < |xs| ==> r.items[i] == JInt(xs[i])
  {
    JList(seq(|xs|, i requires 0 <= i < |xs| => JInt(xs[i])))
  }

  /** A dict display: the pairs in order, a later one replacing an earlier one
      with the same key. */
  function FromPairs(ps: seq<(string, Json)>): Dict
  {
    if ps == [] then map[] else FromPairs(ps[..|ps| - 1])[ps[|ps| - 1].0 := ps[|ps| - 1].1]
  }

  lemma {:induction false} FromPairsKeys(ps: seq<(string, Json)>, k: string)
    ensures k in FromPairs(ps) <==> exists i :: 0 <= i < |ps| && ps[i].0 == k
  {
    if ps != [] {
      var init := ps[..|ps| - 1];
      FromPairsKeys(init, k);
      if exists i :: 0 <= i < |init| && init[i].0 == k {
        var i :| 0 <= i < |init| && init[i].0 == k;
        assert ps[i].0 == k;
      }
      if exists i :: 0 <= i < |ps| && ps[i].0 == k {
        var i :| 0 <= i < |ps| && ps[i].0 == k;
        if i < |init| {
          assert init[i].0 == k;
        }
      }
    }
  }

  /** The payload dict as first written: the caller's fields, then the fixed
      defaults. */
  function EventFields(args: EventArgs): seq<(string, Json)>
  {
    [
      ("event_name", JStr(args.eventName)),
      ("event_type", JStr(args.eventType)),
      ("event_start_datetime", JStr(args.eventStart)),
      ("event_end_datetime", JStr(args.eventEnd)),
      ("date", JStr(args.date)),
      ("start_time", JStr(args.startTime)),
      ("duration_hours", JInt(args.durationHours)),
      ("duration_minutes", JInt(args.durationMinutes)),
      ("instructors", IntList(args.instructors)),
      ("products", IntList(args.products)),
      ("registration_required", JBool(false)),
      ("post_event_recording_available", JBool(true)),
      ("recording_expiration_days", JInt(3)),
      ("registration_limit", JInt(0)),
      ("registration_closes_minutes_before_start", JInt(0)),
      ("unregistration_closes_minutes_before_start", JInt(0)),
      ("days_of_week", JList([])),
      ("agreed_to_www_requirements", JBool(false)),
      ("is_repeating_event", JBool(false)),
      ("is_free_event", JBool(false)),
      ("require_first_name", JBool(false)),
      ("require_last_name", JBool(false)),
      ("hide_registration_info", JBool(false)),
      ("email_notifications_enabled", JBool(true)),
      ("sms_notifications_enabled", JBool(true)),
      ("is_punchable_event", JBool(true)),
      ("attachments", JList([])),
      ("auto_notify_waitlist", JBool(true)),
      ("copy_event_description_to_recording", JBool(true)),
      ("student", JNull)
    ]
  }

  function EventPayloadBase(args: EventArgs): Dict
  {
    FromPairs(EventFields(args))
  }

  const DescriptionKey := "event_description_new"

  /** The payload `create_event` posts. `describe` is `_create_description`, whose
      output carries the clock and is not part of this model. */
  method BuildEventPayload(args: EventArgs, describe: string -> string, kwargs: Dict) returns (payload: Dict)
    ensures forall k :: k in payload <==>
      || k in EventPayloadBase(args)
      || (k == DescriptionKey && args.description.Some? && args.description.value != "")
      || k in kwargs
    ensures forall k :: k in kwargs ==> Get(payload, k) == kwargs[k]
    ensures forall k :: k in EventPayloadBase(args) && k !in kwargs ==> Get(payload, k) == Get(EventPayloadBase(args), k)
    ensures DescriptionKey in payload <==> (args.description.Some? && args.description.value != "") || DescriptionKey in kwargs
    ensures (DescriptionKey !in kwargs && args.description.Some? && args.description.value != "")
      ==> Get(payload, DescriptionKey) == JStr(describe(args.description.value))
  {
    payload := EventPayloadBase(args);
    DescriptionKeyIsNew(args);
    if args.description.Some? && args.description.value != "" {
      payload := payload[DescriptionKey := JStr(describe(args.description.value))];
    }
    payload := payload + kwargs;
  }

  /** The description is not among the fields written first. */
  lemma DescriptionKeyIsNew(args: EventArgs)
    ensures DescriptionKey !in EventPayloadBase(args)
  {
    var ps := EventFields(args);
    FromPairsKeys(ps, DescriptionKey);
    assert forall i :: 0 <= i < |ps| ==> ps[i].0 != DescriptionKey;
  }

  /** The arguments of `create_coupon`; the four optional ones are None when the
      caller omits them. */
  datatype CouponArgs = CouponArgs(
    code: string,
    name: string,
    discountAmount: string,
    discountType: string,
    products: Option<seq<int>>,
    redeemStart: Option<string>,
    redeemEnd: Option<string>,
    maxRedemptions: Option<string>,
    durationType: string,
    durationUnits: string)

  const DefaultDiscountType := "percentage"
  const DefaultDurationType := "unlimited"
  const DefaultDurationUnits := "1"

  /** The payload dict as first written. */
  function CouponFields(args: CouponArgs): seq<(string, Json)>
  {
    [
      ("code", JStr(args.code)),
      ("name", JStr(args.name)),
      ("discount_amount", JStr(args.discountAmount)),
      ("discount_type", JStr(args.discountType)),
      ("duration_type", JStr(args.durationType)),
      ("duration_units", JStr(args.durationUnits))
    ]
  }

  function CouponPayloadBase(args: CouponArgs): Dict
  {
    FromPairs(CouponFields(args))
  }

  predicate TruthyText(s: Option<string>)
  {
    s.Some? && s.value != ""
  }

  predicate TruthyList(xs: Option<seq<int>>)
  {
    xs.Some? && xs.value != []
  }

  /** The payload `create_coupon` posts. */
  method BuildCouponPayload(args: CouponArgs, kwargs: Dict) returns (payload: Dict)
    ensures forall k :: k in payload <==>
      || k in CouponPayloadBase(args)
      || (k == "products" && TruthyList(args.products))
      || (k == "redeem_start" && TruthyText(args.redeemStart))
      || (k == "redeem_end" && TruthyText(args.redeemEnd))
      || (k == "max_redemptions" && TruthyText(args.maxRedemptions))
      || k in kwargs
    ensures forall k :: k in kwargs ==> Get(payload, k) == kwargs[k]
    ensures forall k :: k in CouponPayloadBase(args) && k !in kwargs ==> Get(payload, k) == Get(CouponPayloadBase(args), k)
    ensures "products" !in kwargs && TruthyList(args.products) ==> Get(payload, "products") == IntList(args.products.value)
    ensures "redeem_start" !in kwargs && TruthyText(args.redeemStart) ==> Get(payload, "redeem_start") == JStr(args.redeemStart.value)
    ensures "redeem_end" !in kwargs && TruthyText(args.redeemEnd) ==> Get(payload, "redeem_end") == JStr(args.redeemEnd.value)
    ensures "max_redemptions" !in kwargs && TruthyText(args.maxRedemptions)
      ==> Get(payload, "max_redemptions") == JStr(args.maxRedemptions.value)
  {
    OptionalKeysAreNew(args);
    payload := CouponPayloadBase(args);
    if TruthyList(args.products) {
      payload := payload["products" := IntList(args.products.value)];
    }
    if TruthyText(args.redeemStart) {
      payload := payload["redeem_start" := JStr(args.redeemStart.value)];
    }
    if TruthyText(args.redeemEnd) {
      payload := payload["redeem_end" := JStr(args.redeemEnd.value)];
    }
    if TruthyText(args.maxRedemptions) {
      payload := payload["max_redemptions" := JStr(args.maxRedemptions.value)];
    }
    payload := payload + kwargs;
  }

  /** The optional keys are not among the fields written first. */
  lemma OptionalKeysAreNew(args: CouponArgs)
    ensures "products" !in CouponPayloadBase(args) && "redeem_start" !in CouponPayloadBase(args)
    ensures "redeem_end" !in CouponPayloadBase(args) && "max_redemptions" !in CouponPayloadBase(args)
  {
    var ps := CouponFields(args);
    FromPairsKeys(ps, "products");
    FromPairsKeys(ps, "redeem_start");
    FromPairsKeys(ps, "redeem_end");
    FromPairsKeys(ps, "max_redemptions");
  }

  // ---------------------------------------------------------------- flattening

  /** `x['id'] if isinstance(x, dict) else x`; None when a dict has no id
      (`KeyError`). */
  function IdOf(x: Json): Option<Json>
  {
    match x
    case JObj(f) => if "id" in f then Some(f["id"]) else None
    case _ => Some(x)
  }

  /** The list comprehension over a nested list; None when it raises. */
  function FlattenList(items: seq<Json>): (r: Option<seq<Json>>)
    ensures r.Some? <==> forall i :: 0 <= i < |items| ==> IdOf(items[i]).Some?
    ensures r.Some? ==> |r.value| == |items| && forall i :: 0 <= i < |items| ==> r.value[i] == IdOf(items[i]).value
  {
    if items == [] then Some([])
    else match IdOf(items[0])
      case None => None
      case Some(x) =>
        match FlattenList(items[1..])
        case None => None
        case Some(rest) => Some([x] + rest)
  }

  /** One rewrite a `_prepare_*` helper performs. */
  datatype Flatten =
    | ListOfIds(key: string)     // a list field: each dict element becomes its id
    | ObjectToId(key: string)    // a dict field: it becomes its id

  /** The effect of one rewrite on the dict; None when it raises `KeyError`. */
  function Apply(d: Dict, step: Flatten): Option<Dict>
  {
    var k := step.key;
    match step
    case ListOfIds(_) =>
      if k in d && d[k].JList? then
        (match FlattenList(d[k].items)
         case None => None
         case Some(ids) => Some(d[k := JList(ids)]))
      else Some(d)
    case ObjectToId(_) =>
      if k in d && d[k].JObj? then
        (if "id" in d[k].fields then Some(d[k := d[k].fields["id"]]) else None)
      else Some(d)
  }

  /** The dict after the rewrites, and whether they all completed. A failing
      rewrite leaves its own field alone, but the earlier ones stay done. */
  datatype Prepared = Prepared(entries: Dict, ok: bool)

  function ApplyAll(d: Dict, steps: seq<Flatten>): Prepared
  {
    if steps == [] then Prepared(d, true)
    else match Apply(d, steps[0])
      case None => Prepared(d, false)
      case Some(d1) => ApplyAll(d1, steps[1..])
  }

  const EventSteps := [ListOfIds("products"), ListOfIds("instructors"), ListOfIds("substitute_instructors")]
  const ProductSteps := [ListOfIds("tags")]
  const CouponSteps := [ListOfIds("products")]
  const MediaSteps := [ObjectToId("media"), ObjectToId("instructor"), ListOfIds("options")]

  /** A Python `dict` the helpers update in place. */
  class JsonDict {
    var entries: Dict

    constructor (entries: Dict)
      ensures this.entries == entries
    {
      this.entries := entries;
    }
  }

  /** One rewrite, in place; false when it raised, with the field untouched. */
  method ApplyInPlace(d: JsonDict, step: Flatten) returns (ok: bool)
    modifies d
    ensures ok == Apply(old(d.entries), step).Some?
    ensures d.entries == if ok then Apply(old(d.entries), step).value else old(d.entries)
  {
    var k := step.key;
    if k !in d.entries {
      return true;
    }
    var v := d.entries[k];
    match step {
      case ListOfIds(_) =>
        if !v.JList? {
          return true;
        }
        var ids := FlattenList(v.items);
        if ids.None? {
          return false;
        }
        d.entries := d.entries[k := JList(ids.value)];
      case ObjectToId(_) =>
        if !v.JObj? {
          return true;
        }
        if "id" !in v.fields {
          return false;
        }
        d.entries := d.entries[k := v.fields["id"]];
    }
    return true;
  }

  /** `_prepare_event_for_update`: returns the same dict; `ok` is false when it
      raised. */
  method PrepareEventForUpdate(event: JsonDict) returns (r: JsonDict, ok: bool)
    modifies event
    ensures r == event
    ensures Prepared(event.entries, ok) == ApplyAll(old(event.entries), EventSteps)
  {
    r := event;
    ghost var d0 := event.entries;
    ok := ApplyInPlace(event, ListOfIds("products"));
    if !ok {
      return;
    }
    ghost var d1 := event.entries;
    ok := ApplyInPlace(event, ListOfIds("instructors"));
    if !ok {
      assert ApplyAll(d1, EventSteps[1..]) == Prepared(d1, false);
      return;
    }
    ghost var d2 := event.entries;
    ok := ApplyInPlace(event, ListOfIds("substitute_instructors"));
    assert ApplyAll(d2, EventSteps[2..]) == Prepared(event.entries, ok);
    assert ApplyAll(d1, EventSteps[1..]) == ApplyAll(d2, EventSteps[2..]);
  }

  /** `_prepare_product_for_update` */
  method PrepareProductForUpdate(product: JsonDict) returns (r: JsonDict, ok: bool)
    modifies product
    ensures r == product
    ensures Prepared(product.entries, ok) == ApplyAll(old(product.entries), ProductSteps)
  {
    r := product;
    ok := ApplyInPlace(product, ListOfIds("tags"));
  }

  /** `_prepare_coupon_for_update` */
  method PrepareCouponForUpdate(coupon: JsonDict) returns (r: JsonDict, ok: bool)
    modifies coupon
    ensures r == coupon
    ensures Prepared(coupon.entries, ok) == ApplyAll(old(coupon.entries), CouponSteps)
  {
    r := coupon;
    ok := ApplyInPlace(coupon, ListOfIds("products"));
  }

  /** `_prepare_media_for_update` */
  method PrepareMediaForUpdate(media: JsonDict) returns (r: JsonDict, ok: bool)
    modifies media
    ensures r == media
    ensures Prepared(media.entries, ok) == ApplyAll(old(media.entries), MediaSteps)
  {
    r := media;
    ok := ApplyInPlace(media, ObjectToId("media"));
    if !ok {
      return;
    }
    ghost var d1 := media.entries;
    ok := ApplyInPlace(media, ObjectToId("instructor"));
    if !ok {
      assert ApplyAll(d1, MediaSteps[1..]) == Prepared(d1, false);
      return;
    }
    ghost var d2 := media.entries;
    ok := ApplyInPlace(media, ListOfIds("options"));
    assert ApplyAll(d2, MediaSteps[2..]) == Prepared(media.entries, ok);
    assert ApplyAll(d1, MediaSteps[1..]) == ApplyAll(d2, MediaSteps[2..]);
  }

  // ---------------------------------------------------------------- properties

  /** A list rewrite keeps the length and order of the list, replaces each dict
      element by its id and keeps every other element; it raises exactly when a
      dict element has no id. Every other field is untouched. */
  lemma ListOfIdsShape(d: Dict, k: string)
    ensures Apply(d, ListOfIds(k)).None?
        <==> k in d && d[k].JList? && exists i :: 0 <= i < |d[k].items| && d[k].items[i].JObj? && "id" !in d[k].items[i].fields
    ensures Apply(d, ListOfIds(k)).Some? ==>
      var d1 := Apply(d, ListOfIds(k)).value;
      && d1.Keys == d.Keys
      && (forall j :: j in d && j != k ==> d1[j] == d[j])
      && (k in d && d[k].JList? ==>
            && d1[k].JList? && |d1[k].items| == |d[k].items|
            && (forall i :: 0 <= i < |d[k].items| && d[k].items[i].JObj? ==> d1[k].items[i] == d[k].items[i].fields["id"])
            && (forall i :: 0 <= i < |d[k].items| && !d[k].items[i].JObj? ==> d1[k].items[i] == d[k].items[i]))
      && (k in d && !d[k].JList? ==> d1 == d)
  {
  }

  /** An object rewrite replaces a dict-valued field by its id and leaves any
      other value alone; it raises exactly when the dict has no id. */
  lemma ObjectToIdShape(d: Dict, k: string)
    ensures Apply(d, ObjectToId(k)).None? <==> k in d && d[k].JObj? && "id" !in d[k].fields
    ensures Apply(d, ObjectToId(k)).Some? ==>
      var d1 := Apply(d, ObjectToId(k)).value;
      && d1.Keys == d.Keys
      && (forall j :: j in d && j != k ==> d1[j] == d[j])
      && (k in d && d[k].JObj? ==> d1[k] == d[k].fields["id"])
      && (!(k in d && d[k].JObj?) ==> d1 == d)
  {
  }

  /** The field a rewrite targets is already flat: a list without dict elements,
      or anything but a dict. */
  predicate Flat(d: Dict, step: Flatten)
  {
    var k := step.key;
    match step
    case ListOfIds(_) => k in d && d[k].JList? ==> forall i :: 0 <= i < |d[k].items| ==> !d[k].items[i].JObj?
    case ObjectToId(_) => !(k in d && d[k].JObj?)
  }

  /** The ids the rewrite would substitute are not dicts themselves. */
  predicate IdsNotObjects(d: Dict, step: Flatten)
  {
    var k := step.key;
    match step
    case ListOfIds(_) =>
      k in d && d[k].JList? ==>
        forall i :: 0 <= i < |d[k].items| && d[k].items[i].JObj? && "id" in d[k].items[i].fields
          ==> !d[k].items[i].fields["id"].JObj?
    case ObjectToId(_) => k in d && d[k].JObj? && "id" in d[k].fields ==> !d[k].fields["id"].JObj?
  }

  lemma StepFlattens(d: Dict, step: Flatten)
    requires Apply(d, step).Some? && IdsNotObjects(d, step)
    ensures Flat(Apply(d, step).value, step)
  {
  }

  lemma FlatStepIsNoop(d: Dict, step: Flatten)
    requires Flat(d, step)
    ensures Apply(d, step) == Some(d)
  {
    var k := step.key;
    if step.ListOfIds? && k in d && d[k].JList? {
      var ids := FlattenList(d[k].items).value;
      assert ids == d[k].items;
      assert JList(ids) == d[k];
      assert d[k := JList(ids)] == d;
    }
  }

  /** A rewrite leaves every field but its own, and so every fact about them. */
  lemma StepKeepsOthers(d: Dict, step: Flatten, other: Flatten)
    requires Apply(d, step).Some? && other.key != step.key
    ensures Flat(d, other) ==> Flat(Apply(d, step).value, other)
    ensures IdsNotObjects(d, other) ==> IdsNotObjects(Apply(d, step).value, other)
  {
    var d1 := Apply(d, step).value;
    assert other.key in d1 <==> other.key in d;
    assert other.key in d ==> d1[other.key] == d[other.key];
  }

  /** The rewrites target distinct fields. */
  predicate DistinctKeys(steps: seq<Flatten>)
  {
    forall i, j :: 0 <= i < j < |steps| ==> steps[i].key != steps[j].key
  }

  /** After a completed run whose ids are not dicts, every targeted field is
      flat. */
  lemma {:induction false} ApplyAllFlattens(d: Dict, steps: seq<Flatten>)
    requires DistinctKeys(steps) && ApplyAll(d, steps).ok
    requires forall i :: 0 <= i < |steps| ==> IdsNotObjects(d, steps[i])
    ensures forall i :: 0 <= i < |steps| ==> Flat(ApplyAll(d, steps).entries, steps[i])
  {
    if steps != [] {
      var d1 := Apply(d, steps[0]).value;
      var rest := steps[1..];
      forall i | 0 <= i < |rest|
        ensures IdsNotObjects(d1, rest[i])
      {
        StepKeepsOthers(d, steps[0], steps[i + 1]);
      }
      ApplyAllFlattens(d1, rest);
      StepFlattens(d, steps[0]);
      ApplyAllKeeps(d1, rest, steps[0]);
      forall i | 0 <= i < |steps|
        ensures Flat(ApplyAll(d, steps).entries, steps[i])
      {
        if i > 0 {
          assert steps[i] == rest[i - 1];
        }
      }
    }
  }

  /** A run leaves flat any field none of its rewrites targets. */
  lemma {:induction false} ApplyAllKeeps(d: Dict, steps: seq<Flatten>, other: Flatten)
    requires forall i :: 0 <= i < |steps| ==> steps[i].key != other.key
    requires Flat(d, other)
    ensures Flat(ApplyAll(d, steps).entries, other)
  {
    if steps != [] && Apply(d, steps[0]).Some? {
      StepKeepsOthers(d, steps[0], other);
      ApplyAllKeeps(Apply(d, steps[0]).value, steps[1..], other);
    }
  }

  /** On a dict whose targeted fields are flat, a run changes nothing. */
  lemma {:induction false} FlatRunIsNoop(d: Dict, steps: seq<Flatten>)
    requires forall i :: 0 <= i < |steps| ==> Flat(d, steps[i])
    ensures ApplyAll(d, steps) == Prepared(d, true)
  {
    if steps != [] {
      FlatStepIsNoop(d, steps[0]);
      FlatRunIsNoop(d, steps[1..]);
    }
  }

  /** Preparing an already prepared dict changes nothing, as long as the ids
      substituted the first time were not dicts. */
  lemma PrepareIdempotent(d: Dict, steps: seq<Flatten>)
    requires DistinctKeys(steps) && ApplyAll(d, steps).ok
    requires forall i :: 0 <= i < |steps| ==> IdsNotObjects(d, steps[i])
    ensures ApplyAll(ApplyAll(d, steps).entries, steps) == ApplyAll(d, steps)
  {
    ApplyAllFlattens(d, steps);
    FlatRunIsNoop(ApplyAll(d, steps).entries, steps);
  }

  /** The four helpers rewrite distinct fields, so the idempotence applies to each. */
  lemma HelpersHaveDistinctKeys()
    ensures DistinctKeys(EventSteps) && DistinctKeys(ProductSteps)
    ensures DistinctKeys(CouponSteps) && DistinctKeys(MediaSteps)
  {
  }
}
