/**
 * Where an API endpoint's traffic goes: either the literal target of the
 * specification or, when the specification names a Kubernetes Service, the
 * in-cluster URL of that Service's first port.
 */
module Target {
  import opened Types
  import opened Gateway

  // Decimal rendering of an integer, as the %d verb prints it

  function DigitChar(d: nat): (c: char)
    requires d < 10
    ensures '0' <= c <= '9'
  {
    ('0' as int + d) as char
  }

  function DigitValue(c: char): (d: nat)
    requires '0' <= c <= '9'
    ensures d < 10
  {
    c as int - '0' as int
  }

  predicate AllDigits(s: string) {
    forall i :: 0 <= i < |s| ==> '0' <= s[i] <= '9'
  }

  /** The decimal digits of n, most significant first, without leading zeros. */
  function Digits(n: nat): (r: string)
    ensures |r| >= 1 && AllDigits(r)
    ensures r[0] == '0' ==> n == 0
    decreases n
  {
    if n < 10 then [DigitChar(n)] else Digits(n / 10) + [DigitChar(n % 10)]
  }

  /** %d: a minus sign before the digits of a negative number. */
  function FormatInt(n: int): (r: string)
    ensures |r| >= 1
    ensures (r[0] == '-') <==> n < 0
  {
    if n < 0 then "-" + Digits(-n) else Digits(n)
  }

  /** The number a digit string denotes. */
  function DigitsValue(s: string): nat
    requires AllDigits(s)
    decreases |s|
  {
    if s == [] then 0 else DigitsValue(s[..|s| - 1]) * 10 + DigitValue(s[|s| - 1])
  }

  /** Reading back a decimal integer, with an optional minus sign. */
  function ParseInt(s: string): (r: Option<int>)
    ensures r.Some? ==> |s| >= 1
  {
    if |s| >= 2 && s[0] == '-' && AllDigits(s[1..]) then Some(0 - DigitsValue(s[1..]) as int)
    else if |s| >= 1 && AllDigits(s) then Some(DigitsValue(s))
    else None
  }

  lemma {:induction false} DigitsRoundTrip(n: nat)
    ensures DigitsValue(Digits(n)) == n
    decreases n
  {
    if n >= 10 {
      DigitsRoundTrip(n / 10);
      var r := Digits(n);
      assert r[..|r| - 1] == Digits(n / 10);
    }
  }

  /** A digit string reads back as the number it denotes. */
  lemma ParseDigits(s: string)
    requires |s| >= 1 && AllDigits(s)
    ensures ParseInt(s) == Some(DigitsValue(s))
  {
    assert '0' <= s[0] <= '9';
  }

  /** A minus sign before a digit string reads back as the negated number. */
  lemma ParseNegated(s: string)
    requires |s| >= 1 && AllDigits(s)
    ensures ParseInt("-" + s) == Some(0 - DigitsValue(s) as int)
  {
    assert ("-" + s)[1..] == s;
  }

  /** Printing an integer and reading it back gives the integer. */
  lemma FormatIntRoundTrip(n: int)
    ensures ParseInt(FormatInt(n)) == Some(n)
  {
    if n < 0 {
      var m: nat := -n;
      DigitsRoundTrip(m);
      ParseNegated(Digits(m));
      assert FormatInt(n) == "-" + Digits(m);
    } else {
      var m: nat := n;
      DigitsRoundTrip(m);
      ParseDigits(Digits(m));
      assert FormatInt(n) == Digits(m);
    }
  }

  // The Service URL

  /** The part of a Service URL before the port: protocol://name.namespace.svc.domain: */
  function ServiceAuthority(protocol: string, name: string, namespace: string, domain: string): string {
    protocol + "://" + name + "." + namespace + ".svc." + domain + ":"
  }

  /** The URL of a Service port: protocol://name.namespace.svc.domain:port/path. */
  function ServiceTarget(protocol: string, name: string, namespace: string, domain: string, port: int, path: string): string {
    ServiceAuthority(protocol, name, namespace, domain) + FormatInt(port) + "/" + path
  }

  /**
   * A Service URL starts with the protocol and the host built from the
   * Service's name, namespace and cluster domain, ends with "/" and the
   * path, and between them holds exactly the port, which reads back.
   */
  lemma ServiceTargetParts(protocol: string, name: string, namespace: string, domain: string, port: int, path: string)
    ensures var r := ServiceTarget(protocol, name, namespace, domain, port, path);
      var head := ServiceAuthority(protocol, name, namespace, domain);
      && protocol + "://" + name + "." + namespace + ".svc." + domain + ":" <= r
      && |head| + 2 <= |r| - |path|
      && r[|r| - |path| - 1..] == "/" + path
      && ParseInt(r[|head|..|r| - |path| - 1]) == Some(port)
  {
    SeparatedParts(ServiceAuthority(protocol, name, namespace, domain), FormatInt(port), path);
    FormatIntRoundTrip(port);
  }

  /** The three parts of head + middle + "/" + path are found again at their places. */
  lemma SeparatedParts(head: string, middle: string, path: string)
    ensures var r := head + middle + "/" + path;
      && head <= r && |r| == |head| + |middle| + 1 + |path|
      && r[|r| - |path| - 1..] == "/" + path
      && r[|head|..|r| - |path| - 1] == middle
  {
    var r := head + middle + "/" + path;
    assert r == head + (middle + ("/" + path));
    assert r[|head|..] == middle + ("/" + path);
    assert r[|head|..|r| - |path| - 1] == r[|head|..][..|middle|];
  }

  /** The protocol of a Service port: its application protocol if set, else the configured default. */
  function ProtocolOf(p: ServicePort, cfg: Config): string {
    if p.appProtocol.Some? then p.appProtocol.value else cfg.serviceDefaultProtocol
  }

  // GetServiceByName and GetAPITarget

  /**
   * GetServiceByName: read the Service named by the specification in the
   * endpoint's namespace. A refused read is returned as an error; a Service
   * without ports aborts the pass (the first port is indexed).
   */
  function GetServiceByNameRun(t: Trace, spec: EndpointSpec, namespace: string, cfg: Config): Answered<string> {
    var c := GetService(namespace, spec.targetService);
    if !Accepted(t, c) then Answered(Issue(t, c), Fail(CallFailed(|t.log|)), None)
    else
      var svc := t.store.services[(namespace, spec.targetService)];
      if |svc.ports| == 0 then Answered(Issue(t, c), Panic, None)
      else
        var p := svc.ports[0];
        Answered(Issue(t, c), Ok,
                 Some(ServiceTarget(ProtocolOf(p, cfg), spec.targetService, namespace,
                                    cfg.serviceDefaultDomain, p.port, spec.target)))
  }

  /** GetAPITarget: a named Service is looked up; otherwise the literal target is used as it is. */
  function GetAPITargetRun(t: Trace, spec: EndpointSpec, namespace: string, cfg: Config): Answered<string> {
    if spec.targetService != "" then GetServiceByNameRun(t, spec, namespace, cfg)
    else Answered(t, Ok, Some(spec.target))
  }

  /** Whether the Service exists and the read of it is let through. */
  predicate ServiceReadable(t: Trace, namespace: string, name: string) {
    |t.log| !in t.faults && (namespace, name) in t.store.services
  }

  /**
   * Without a Service name the target is the literal one and nothing is
   * called; with one, exactly one read of that Service is issued, the store
   * is untouched, and a target is produced exactly when the Service is read
   * and has a port: the URL of its first port with the port's protocol or
   * the default, the configured domain and the literal target as the path.
   */
  lemma GetAPITargetResolves(t: Trace, spec: EndpointSpec, namespace: string, cfg: Config)
    ensures var r := GetAPITargetRun(t, spec, namespace, cfg);
      spec.targetService == "" ==> r.trace == t && r.out == Ok && r.value == Some(spec.target)
    ensures var r := GetAPITargetRun(t, spec, namespace, cfg);
      spec.targetService != "" ==>
        && r.trace.store == t.store && r.trace.faults == t.faults
        && Calls(r.trace.log) == Calls(t.log) + [GetService(namespace, spec.targetService)]
        && (r.out.Ok? <==> r.value.Some?)
        && (r.out.Fail? <==> !ServiceReadable(t, namespace, spec.targetService))
        && (r.out.Panic? <==> ServiceReadable(t, namespace, spec.targetService)
                              && |t.store.services[(namespace, spec.targetService)].ports| == 0)
        && (r.value.Some? ==>
              var p := t.store.services[(namespace, spec.targetService)].ports[0];
              r.value.value == ServiceTarget(if p.appProtocol.Some? then p.appProtocol.value else cfg.serviceDefaultProtocol,
                                             spec.targetService, namespace, cfg.serviceDefaultDomain,
                                             p.port, spec.target))
  {
    if spec.targetService != "" {
      var c := GetService(namespace, spec.targetService);
      ReadOnlyEffect(t.store, c);
      CallsAppend(t.log, [Event(c, Accepted(t, c))]);
    }
  }

  lemma GetAPITargetExtends(t: Trace, spec: EndpointSpec, namespace: string, cfg: Config)
    ensures Extends(t, GetAPITargetRun(t, spec, namespace, cfg).trace)
    ensures Since(t, GetAPITargetRun(t, spec, namespace, cfg).trace)
         == if spec.targetService != "" then [GetService(namespace, spec.targetService)] else []
  {
    if spec.targetService != "" {
      IssueExtends(t, GetService(namespace, spec.targetService));
    } else {
      assert t.log[..|t.log|] == t.log;
    }
  }

  method GetServiceByName(b: Backend, spec: EndpointSpec, namespace: string, cfg: Config) returns (out: Outcome, target: Option<string>)
    modifies b
    ensures Answered(b.Snapshot(), out, target) == GetServiceByNameRun(old(b.Snapshot()), spec, namespace, cfg)
  {
    var at := |b.log|;
    var ok, reply := b.Invoke(GetService(namespace, spec.targetService));
    if !ok {
      return Fail(CallFailed(at)), None;
    }
    var svc := reply.service;
    if |svc.ports| == 0 {
      return Panic, None;
    }
    var protocol := if svc.ports[0].appProtocol.Some? then svc.ports[0].appProtocol.value else cfg.serviceDefaultProtocol;
    out, target := Ok, Some(ServiceTarget(protocol, spec.targetService, namespace, cfg.serviceDefaultDomain,
                                          svc.ports[0].port, spec.target));
  }

  method GetAPITarget(b: Backend, spec: EndpointSpec, namespace: string, cfg: Config) returns (out: Outcome, target: Option<string>)
    modifies b
    ensures Answered(b.Snapshot(), out, target) == GetAPITargetRun(old(b.Snapshot()), spec, namespace, cfg)
  {
    if spec.targetService != "" {
      out, target := GetServiceByName(b, spec, namespace, cfg);
    } else {
      out, target := Ok, Some(spec.target);
    }
  }
}
