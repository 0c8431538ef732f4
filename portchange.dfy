/**
 * The port management screen (src/pages/User/Portchange.jsx): the user opens a request
 * form, picks one of the available providers and submits or cancels the request.
 */
module Portchange {
  import opened Wrappers
  import opened JsValues
  import PlanDetails

  /** The providers the request form offers, in order. */
  const AvailablePorts: seq<string> := ["Jio", "BSNL", "Vi"]

  /** The icon class of each provider this screen knows. */
  const Icons: map<string, string> := map[
    "Airtel" := "fa-solid fa-wifi",
    "Jio" := "fa-solid fa-signal",
    "BSNL" := "fa-solid fa-tower-broadcast",
    "Vi" := "fa-solid fa-wifi"
  ]

  /** `getProviderIcon(provider)`: the icon of the provider named exactly `provider`, else the wifi icon. */
  function GetProviderIcon(provider: string): (icon: string)
    ensures provider in Icons ==> icon == Icons[provider]
    ensures provider !in Icons ==> icon == "fa-solid fa-wifi"
  {
    if provider in Icons then Icons[provider] else "fa-solid fa-wifi"
  }

  /**
   * This screen and the plan detail screen give every provider the same icon, except ACT and
   * Hathway, which only the detail screen knows.
   */
  lemma IconsAgree(provider: string)
    ensures provider != "ACT" && provider != "Hathway" ==> GetProviderIcon(provider) == PlanDetails.GetProviderIcon(Str(provider))
    ensures GetProviderIcon("ACT") != PlanDetails.GetProviderIcon(Str("ACT"))
  {
    assert "ACT" !in Icons;
    assert "ACT" in PlanDetails.Icons;
  }

  /** The state of the screen. */
  class PortManagement {
    var selectedPort: Option<string>
    var showRequestForm: bool

    /** A provider is only selected while the form is shown, and only from the offered ones. */
    predicate Valid()
      reads this
    {
      selectedPort.Some? ==> showRequestForm && selectedPort.value in AvailablePorts
    }

    constructor()
      ensures selectedPort == None && !showRequestForm && Valid()
    {
      selectedPort := None;
      showRequestForm := false;
    }

    /** "Request Port Change": the form is shown. */
    method OpenRequestForm()
      requires Valid()
      modifies this
      ensures showRequestForm && selectedPort == old(selectedPort) && Valid()
    {
      showRequestForm := true;
    }

    /** A click on an offered provider selects it. */
    method SelectPort(provider: string)
      requires Valid() && showRequestForm && provider in AvailablePorts
      modifies this
      ensures selectedPort == Some(provider) && showRequestForm && Valid()
    {
      selectedPort := Some(provider);
    }

    /**
     * `handlePortChangeRequest`: without a selection it only alerts; with one it alerts the
     * success message naming the provider, hides the form and clears the selection.
     */
    method SubmitRequest() returns (alert: string)
      requires Valid()
      modifies this
      ensures old(selectedPort).None? ==>
        alert == "Please select a port" && selectedPort == None && showRequestForm == old(showRequestForm)
      ensures old(selectedPort).Some? ==>
        alert == "Port change request to " + old(selectedPort).value + " submitted successfully!"
        && old(selectedPort).value in AvailablePorts
        && selectedPort == None && !showRequestForm
      ensures Valid()
    {
      if selectedPort.None? || selectedPort.value == "" {
        return "Please select a port";
      }
      alert := "Port change request to " + selectedPort.value + " submitted successfully!";
      showRequestForm := false;
      selectedPort := None;
    }

    /** "Cancel": the form is hidden and the selection cleared. */
    method Cancel()
      modifies this
      ensures selectedPort == None && !showRequestForm && Valid()
    {
      showRequestForm := false;
      selectedPort := None;
    }
  }
}
