/**
 * The plan detail screen (src/pages/User/PlanDetails.jsx): the plan named by the route is
 * fetched, its database record is mapped onto the fields the screen shows, with a fallback
 * for each missing one, and the provider's name selects an icon and a list of OTT services.
 */
module PlanDetails {
  import opened Wrappers
  import opened JsValues
  import Text
  import Http

  /** The icon class of each provider the screen knows. */
  const Icons: map<string, string> := map[
    "Airtel" := "fa-solid fa-wifi",
    "Jio" := "fa-solid fa-signal",
    "BSNL" := "fa-solid fa-tower-broadcast",
    "ACT" := "fa-solid fa-network-wired",
    "Hathway" := "fa-solid fa-ethernet"
  ]

  const DefaultIcon := "fa-solid fa-wifi"

  /** The OTT services of each provider the screen knows. */
  const OttServices: map<string, seq<string>> := map[
    "Airtel" := ["Netflix", "Prime Video", "Disney+ Hotstar", "Xstream"],
    "Jio" := ["JioCinema", "JioTV", "Voot", "SonyLIV"],
    "BSNL" := ["Eros Now", "ShemarooMe"],
    "ACT" := ["ZEE5", "SonyLIV", "Voot"],
    "Hathway" := ["Eros Now", "Hungama Play"]
  ]

  const DefaultOtt: seq<string> := ["Netflix", "Prime Video", "Hotstar"]

  /** `getProviderIcon(name)`: the icon of the provider whose name is exactly `name`, else the wifi icon. */
  function GetProviderIcon(name: JsValue): (icon: string)
    ensures ToString(name) in Icons ==> icon == Icons[ToString(name)]
    ensures ToString(name) !in Icons ==> icon == DefaultIcon
  {
    var key := ToString(name);
    if key in Icons then Icons[key] else DefaultIcon
  }

  /** `getProviderOTT(name)`: the services of the provider whose name is exactly `name`, else three common ones. */
  function GetProviderOTT(name: JsValue): (ott: seq<string>)
    ensures ToString(name) in OttServices ==> ott == OttServices[ToString(name)]
    ensures ToString(name) !in OttServices ==> ott == DefaultOtt
  {
    var key := ToString(name);
    if key in OttServices then OttServices[key] else DefaultOtt
  }

  /**
   * The lookups are exact: a provider name in another case is an unknown provider. Every
   * provider, known or not, gets at least two services.
   */
  lemma ProviderLookups(name: JsValue)
    ensures |GetProviderOTT(name)| >= 2
    ensures GetProviderIcon(Str("airtel")) == DefaultIcon && GetProviderOTT(Str("airtel")) == DefaultOtt
    ensures (ToString(name) in Icons) == (ToString(name) in OttServices)
  {
    assert "airtel" != "Airtel";
  }

  /** The fields the screen shows for a plan. */
  datatype PlanView = PlanView(
    id: JsValue,
    provider: JsValue,
    speed: string,
    speedDisplay: JsValue,
    price: JsValue,
    validity: string,
    data: JsValue,
    description: string,
    icon: string,
    ott: seq<string>)

  /**
   * The record inside a response body, `data.plan || data`: reading `plan` of `null` throws,
   * and a falsy record is rejected as empty.
   */
  function Record(data: JsValue): (r: Result<JsValue>)
    ensures r.Success? ==> Truthy(r.value)
    ensures r.Success? && Truthy(Get(data, "plan")) ==> r.value == Get(data, "plan")
    ensures r.Success? && !Truthy(Get(data, "plan")) ==> r.value == data
    ensures (data.Undefined? || data.Null?) ==> r == Failure(ReadError(data, "plan"))
    ensures !(data.Undefined? || data.Null?) ==> (r.Failure? <==> !Truthy(data) && !Truthy(Get(data, "plan")))
  {
    match Prop(data, "plan")
    case Failure(e) => Failure(e)
    case Success(plan) =>
      var planData := Or(plan, data);
      if !Truthy(planData) then Failure("Plan data is empty") else Success(planData)
  }

  /** The digits of a truthy speed string, or "-" when there is no speed; a truthy speed that is not a string has no `replace`. */
  function SpeedDigits(speed: JsValue): (r: Result<string>)
    ensures r.Failure? <==> Truthy(speed) && !speed.Str?
    ensures r.Success? && Truthy(speed) ==> r.value == Text.DigitsOnly(speed.s)
    ensures !Truthy(speed) ==> r == Success("-")
  {
    if !Truthy(speed) then Success("-")
    else if speed.Str? then Success(Text.DigitsOnly(speed.s))
    else Failure("planData.speed.replace is not a function")
  }

  /** The mapping of a record onto the screen's fields, with the fallbacks the screen uses. */
  function View(planData: JsValue): Result<PlanView> {
    match SpeedDigits(Get(planData, "speed"))
    case Failure(e) => Failure(e)
    case Success(speed) =>
      var name := Get(planData, "name");
      var days := Get(planData, "duration_days");
      Success(PlanView(
        Or(Get(planData, "plan_id"), Get(planData, "_id")),
        Or(name, Str("Unknown Provider")),
        speed,
        Or(Get(planData, "speed"), Str("-")),
        Or(Get(planData, "price"), Str("-")),
        if Truthy(days) then ToString(days) + " days" else "-",
        Or(Get(planData, "data_limit"), Str("Unlimited")),
        "High-speed internet connection with reliable performance.",
        GetProviderIcon(name),
        GetProviderOTT(name)))
  }

  /** A response body made into the screen's plan, or the message the screen shows instead. */
  function Normalise(data: JsValue): Result<PlanView> {
    match Record(data)
    case Failure(e) => Failure(e)
    case Success(planData) => View(planData)
  }

  /**
   * What the screen shows of a record: the speed is the speed string's digits ("-" without
   * one) while the original is kept for display; the id falls back from `plan_id` to `_id`;
   * a missing provider, price, validity or data allowance shows its fallback.
   */
  lemma ViewFields(planData: JsValue)
    requires View(planData).Success?
    ensures var v := View(planData).value;
      && (forall i :: 0 <= i < |v.speed| && v.speed != "-" ==> Text.IsDigit(v.speed[i]))
      && (Truthy(Get(planData, "speed")) ==> v.speed == Text.DigitsOnly(Get(planData, "speed").s) && v.speedDisplay == Get(planData, "speed"))
      && (!Truthy(Get(planData, "speed")) ==> v.speed == "-" && v.speedDisplay == Str("-"))
      && (Truthy(Get(planData, "plan_id")) ==> v.id == Get(planData, "plan_id"))
      && (!Truthy(Get(planData, "plan_id")) ==> v.id == Get(planData, "_id"))
      && (!Truthy(Get(planData, "name")) ==> v.provider == Str("Unknown Provider") && v.icon == DefaultIcon && v.ott == DefaultOtt)
      && (!Truthy(Get(planData, "price")) ==> v.price == Str("-"))
      && (Truthy(Get(planData, "duration_days")) <==> v.validity != "-")
      && (Truthy(Get(planData, "duration_days")) ==> v.validity == ToString(Get(planData, "duration_days")) + " days")
      && (Truthy(Get(planData, "name")) ==>
            v.provider == Get(planData, "name") && v.icon == GetProviderIcon(Get(planData, "name"))
            && v.ott == GetProviderOTT(Get(planData, "name")))
      && (Truthy(Get(planData, "price")) ==> v.price == Get(planData, "price"))
      && (!Truthy(Get(planData, "data_limit")) ==> v.data == Str("Unlimited"))
      && (Truthy(Get(planData, "data_limit")) ==> v.data == Get(planData, "data_limit"))
  {
    var v := View(planData).value;
    var days := Get(planData, "duration_days");
    if Truthy(days) {
      assert v.validity == ToString(days) + " days";
      assert |v.validity| > 1;
    }
    var name := Get(planData, "name");
    if !Truthy(name) {
      assert ToString(name) !in Icons by {
        match name
        case Undefined =>
        case Null =>
        case Bool(b) =>
        case Num(n) =>
          assert ToString(name) != "Airtel";
        case Str(s) =>
        case _ =>
      }
    }
  }

  /** The detail screen's state. */
  class PlanDetailsPage {
    var plan: Option<PlanView>
    var loading: bool
    var error: string

    constructor()
      ensures plan == None && loading && error == ""
    {
      plan := None;
      loading := true;
      error := "";
    }

    /** The effect run for the route's `id` ("" when there is none): without an id the error is set and loading ends. */
    method Open(id: string) returns (fetching: bool)
      modifies this
      ensures fetching <==> id != ""
      ensures !fetching ==> error == "No plan ID found in URL" && !loading
      ensures fetching ==> error == old(error) && loading == old(loading)
      ensures plan == old(plan)
    {
      if id == "" {
        error := "No plan ID found in URL";
        loading := false;
        return false;
      }
      return true;
    }

    /**
     * The request's outcome: a thrown request, a response that is not ok, a body that does
     * not parse or cannot be made into a plan sets the error; otherwise the plan is stored.
     * Loading ends either way.
     */
    method FinishFetch(reply: Http.Reply)
      modifies this
      ensures !loading
      ensures reply.Thrown? ==> error == reply.message && plan == old(plan)
      ensures reply.Answered? && !reply.ok ==> error == "Plan not found or API request failed" && plan == old(plan)
      ensures reply.Answered? && reply.ok && reply.body.Failure? ==> error == reply.body.error && plan == old(plan)
      ensures reply.Answered? && reply.ok && reply.body.Success? ==>
        match Normalise(reply.body.value)
        case Failure(e) => error == e && plan == old(plan)
        case Success(v) => plan == Some(v) && error == old(error)
    {
      match reply {
        case Thrown(message) =>
          error := message;
        case Answered(ok, _, body) =>
          if !ok {
            error := "Plan not found or API request failed";
          } else if body.Failure? {
            error := body.error;
          } else {
            var mapped := Normalise(body.value);
            if mapped.Failure? {
              error := mapped.error;
            } else {
              plan := Some(mapped.value);
            }
          }
      }
      loading := false;
    }
  }
}
