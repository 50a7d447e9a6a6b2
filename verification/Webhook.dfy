/** Admission of installations: api/v1alpha1/imageclusterinstall_webhook.go. */
module Webhook {
  import opened Base
  import opened MachineNetworks
  import opened Hub

  predicate ValidNetworks(s: Spec) {
    && (s.machineNetwork.text != "" ==> s.machineNetwork.prefix.Some?)
    && forall n :: n in s.machineNetworks ==> n.text != "" && n.prefix.Some?
  }

  predicate ValidProxy(s: Spec) {
    s.proxy ==> |s.machineNetworks| > 0 || s.machineNetwork.text != ""
  }

  predicate Validate(s: Spec) {
    s.sshKeyValid && s.hostnameValid && ValidNetworks(s) && ValidProxy(s)
  }

  predicate InstallationStarted(i: Install) {
    i.status.host.Some?
  }

  predicate ValidateCreate(i: Install) {
    Validate(i.spec)
  }

  predicate ValidateUpdate(before: Install, after: Install) {
    Validate(after.spec) && (UserSpec(before.spec) == UserSpec(after.spec) || !InstallationStarted(before))
  }

  // ------------------------------------------------- the code, step by step

  method CheckNetwork(c: Cidr) returns (ok: bool)
    ensures ok <==> c.text != "" && c.prefix.Some?
  {
    if c.text == "" {
      return false;
    }
    return c.prefix.Some?;
  }

  method CheckNetworks(legacy: Cidr, networks: seq<Cidr>) returns (ok: bool)
    ensures ok <==> && (legacy.text != "" ==> legacy.prefix.Some?)
                    && forall n :: n in networks ==> n.text != "" && n.prefix.Some?
  {
    if legacy.text != "" {
      ok := CheckNetwork(legacy);
      if !ok {
        return;
      }
    }
    for i := 0 to |networks|
      invariant forall j :: 0 <= j < i ==> networks[j].text != "" && networks[j].prefix.Some?
    {
      ok := CheckNetwork(networks[i]);
      if !ok {
        assert networks[i] in networks;
        return;
      }
    }
    return true;
  }

  /** The new field wins; the legacy one counts only when the new one is empty. */
  method EffectiveTexts(legacy: Cidr, networks: seq<Cidr>) returns (texts: seq<string>)
    ensures |networks| > 0 ==> |texts| == |networks| && forall i :: 0 <= i < |networks| ==> texts[i] == networks[i].text
    ensures |networks| == 0 ==> texts == if legacy.text != "" then [legacy.text] else []
  {
    if |networks| > 0 {
      var buffer := new string[|networks|];
      for i := 0 to |networks|
        invariant forall j :: 0 <= j < i ==> buffer[j] == networks[j].text
      {
        buffer[i] := networks[i].text;
      }
      return buffer[..];
    }
    if legacy.text != "" {
      return [legacy.text];
    }
    return [];
  }

  method CheckSpec(s: Spec) returns (ok: bool)
    ensures ok <==> Validate(s)
  {
    if !s.sshKeyValid || !s.hostnameValid {
      return false;
    }
    ok := CheckNetworks(s.machineNetwork, s.machineNetworks);
    if !ok {
      return;
    }
    var effective := EffectiveTexts(s.machineNetwork, s.machineNetworks);
    ok := !(s.proxy && |effective| == 0);
  }

  method AdmitUpdate(before: Install, after: Install) returns (ok: bool)
    ensures ok <==> ValidateUpdate(before, after)
  {
    ok := CheckSpec(after.spec);
    if !ok {
      return;
    }
    var oldSpec, newSpec := before.spec, after.spec;
    oldSpec := oldSpec.(metadata := None);
    newSpec := newSpec.(metadata := None);
    if oldSpec == newSpec {
      return true;
    }
    return before.status.host.None?;
  }
}
