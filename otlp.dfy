/**
 * pkg/otlp: the decisions `InitTracer` takes from its options: the text-map
 * propagators, the sampler and the exporter endpoint option.
 *
 * The OpenTelemetry objects are values here that name what is built.
 * `strconv.ParseFloat` is a parameter (`parsed`: its result, or None when it
 * fails), and floats are exact reals.
 */
module Otlp {
  import opened Wrappers
  import opened Text

  /** The propagators `buildPropagator` knows. */
  datatype Propagator = TraceContext | Baggage | B3 | B3Multi

  /** The propagator a normalised name stands for. */
  function Known(name: string): Option<Propagator> {
    if name == "tracecontext" then Some(TraceContext)
    else if name == "baggage" then Some(Baggage)
    else if name == "b3" then Some(B3)
    else if name == "b3multi" then Some(B3Multi)
    else None
  }

  /** Lower-cased, then trimmed. */
  function Norm(n: string): string {
    TrimSpace(ToLower(n))
  }

  /** Every name normalised. */
  function Normalised(names: seq<string>): (r: seq<string>)
    ensures |r| == |names|
  {
    if names == [] then [] else Normalised(names[..|names| - 1]) + [Norm(names[|names| - 1])]
  }

  /**
   * The loop of `buildPropagator` over the normalised names `ns`: the
   * propagators chosen, the position each was chosen at, and the set of
   * names seen.
   */
  datatype Scanned = Scanned(ps: seq<Propagator>, at: seq<nat>, seen: set<string>)

  /** One turn of the loop: a new non-empty name is seen, and chosen at `pos` when it is known. */
  function Step(s: Scanned, n: string, pos: nat): Scanned {
    if n in s.seen || n == "" then s
    else match Known(n)
      case Some(p) => Scanned(s.ps + [p], s.at + [pos], s.seen + {n})
      case None => s.(seen := s.seen + {n})
  }

  function Scan(ns: seq<string>): Scanned {
    if ns == [] then Scanned([], [], {})
    else Step(Scan(ns[..|ns| - 1]), ns[|ns| - 1], |ns| - 1)
  }

  /** What `buildPropagator` composes: the chosen propagators, or trace context and baggage when none was. */
  function Built(names: seq<string>): seq<Propagator> {
    var ps := Scan(Normalised(names)).ps;
    if ps == [] then [TraceContext, Baggage] else ps
  }

  lemma ScanSnoc(names: seq<string>, i: nat)
    requires i < |names|
    ensures Scan(Normalised(names[..i + 1])) == Step(Scan(Normalised(names[..i])), Norm(names[i]), i)
  {
    assert names[..i + 1][..i] == names[..i];
    var ns := Normalised(names[..i]);
    assert (ns + [Norm(names[i])])[..i] == ns;
  }

  /** `buildPropagator`. */
  method BuildPropagator(names: seq<string>) returns (ps: seq<Propagator>)
    ensures ps == Built(names)
  {
    ps := [];
    var seen: set<string> := {};
    var i := 0;
    while i < |names|
      invariant 0 <= i <= |names|
      invariant ps == Scan(Normalised(names[..i])).ps && seen == Scan(Normalised(names[..i])).seen
    {
      var name := TrimSpace(ToLower(names[i]));
      ScanSnoc(names, i);
      ps, seen := Visit(ps, seen, name, Scan(Normalised(names[..i])), i);
      i := i + 1;
    }
    assert names[..|names|] == names;
    if |ps| == 0 {
      ps := [TraceContext, Baggage];
    }
  }

  /** The body of `buildPropagator`'s loop for one normalised name. */
  method Visit(ps: seq<Propagator>, seen: set<string>, name: string, ghost s: Scanned, ghost pos: nat)
    returns (ps': seq<Propagator>, seen': set<string>)
    requires ps == s.ps && seen == s.seen
    ensures ps' == Step(s, name, pos).ps && seen' == Step(s, name, pos).seen
  {
    ps', seen' := ps, seen;
    if name in seen || name == "" {
      return;
    }
    seen' := seen + {name};
    if name == "tracecontext" {
      ps' := ps + [TraceContext];
    } else if name == "baggage" {
      ps' := ps + [Baggage];
    } else if name == "b3" {
      ps' := ps + [B3];
    } else if name == "b3multi" {
      ps' := ps + [B3Multi];
    }
  }

  /** The seen set holds exactly the non-empty names. */
  lemma {:induction false} ScanSeen(ns: seq<string>, n: string)
    ensures n in Scan(ns).seen <==> n != "" && n in ns
  {
    if ns != [] {
      var init := ns[..|ns| - 1];
      ScanSeen(init, n);
      assert ns == init + [ns[|ns| - 1]];
    }
  }

  /**
   * Each chosen propagator is named at its position, no name before that
   * position stands for it, and the positions increase: the propagators come
   * in the order of their first naming.
   */
  lemma {:induction false} ScanPositions(ns: seq<string>)
    ensures var s := Scan(ns);
            && |s.at| == |s.ps|
            && (forall i :: 0 <= i < |s.ps| ==> s.at[i] < |ns| && Known(ns[s.at[i]]) == Some(s.ps[i]))
            && (forall i, k :: 0 <= i < |s.ps| && 0 <= k < s.at[i] ==> Known(ns[k]) != Some(s.ps[i]))
            && (forall i, j :: 0 <= i < j < |s.ps| ==> s.at[i] < s.at[j])
  {
    if ns != [] {
      var init := ns[..|ns| - 1];
      var s0 := Scan(init);
      ScanPositions(init);
      assert forall k :: 0 <= k < |init| ==> init[k] == ns[k];
      var n := ns[|ns| - 1];
      if !(n in s0.seen || n == "") && Known(n).Some? {
        var s := Scan(ns);
        var last := |s.ps| - 1;
        forall k | 0 <= k < s.at[last]
          ensures Known(ns[k]) != Some(s.ps[last])
        {
          if Known(ns[k]) == Some(s.ps[last]) {
            assert init[k] == n;
            ScanSeen(init, n);
            assert false;
          }
        }
      }
    }
  }

  /** Every propagator some name stands for is chosen. */
  lemma {:induction false} ScanComplete(ns: seq<string>, k: nat)
    requires k < |ns| && Known(ns[k]).Some?
    ensures Known(ns[k]).value in Scan(ns).ps
  {
    var init := ns[..|ns| - 1];
    var n := ns[|ns| - 1];
    if k < |init| {
      assert init[k] == ns[k];
      ScanComplete(init, k);
    } else if n in Scan(init).seen {
      ScanSeen(init, n);
      var j :| 0 <= j < |init| && init[j] == n;
      ScanComplete(init, j);
    }
  }

  /** No propagator is chosen twice: names are compared after normalisation, and each known name stands for its own propagator. */
  lemma NoDuplicates(ns: seq<string>)
    ensures var ps := Scan(ns).ps;
            forall i, j :: 0 <= i < j < |ps| ==> ps[i] != ps[j]
  {
    ScanPositions(ns);
  }

  /** The defaults, trace context then baggage, are composed exactly when no name stands for a known propagator. */
  lemma DefaultWhenNoneKnown(ns: seq<string>)
    ensures Scan(ns).ps == [] <==> forall k :: 0 <= k < |ns| ==> Known(ns[k]).None?
  {
    ScanPositions(ns);
    if exists k :: 0 <= k < |ns| && Known(ns[k]).Some? {
      var k :| 0 <= k < |ns| && Known(ns[k]).Some?;
      ScanComplete(ns, k);
    }
  }

  /** Unknown names are passed over, and a name named twice is chosen once, where it first appears. */
  lemma ScanExample()
    ensures Scan(["tracecontext", "b3", "baggage", "tracecontext", "jaeger"]).ps == [TraceContext, B3, Baggage]
  {
    var ns := ["tracecontext", "b3", "baggage", "tracecontext", "jaeger"];
    assert ns[..1] == ["tracecontext"] && ns[..2][..1] == ns[..1] && ns[..3][..2] == ns[..2];
    assert ns[..4][..3] == ns[..3] && ns[..4] == ns[..|ns| - 1];
    assert Scan(ns[..1]) == Scanned([TraceContext], [0], {"tracecontext"});
    assert Scan(ns[..2]) == Scanned([TraceContext, B3], [0, 1], {"tracecontext", "b3"});
    assert Scan(ns[..3]) == Scanned([TraceContext, B3, Baggage], [0, 1, 2], {"tracecontext", "b3", "baggage"});
    assert Scan(ns[..4]) == Scan(ns[..3]);
  }

  /** The exporter protocols. */
  datatype Protocol = Grpc | Http

  /** An endpoint option of an exporter client: a full URL, or a host and port. */
  datatype EndpointOption = WithEndpointURL(protocol: Protocol, url: string) | WithEndpoint(protocol: Protocol, endpoint: string)

  /**
   * `withGrpcEndpoint` and `withHttpEndpoint`: an endpoint with an `http://`
   * or `https://` scheme is a URL, anything else a host and port.
   */
  function EndpointFor(protocol: Protocol, endpoint: string): (r: EndpointOption)
    ensures r.protocol == protocol
    ensures r.WithEndpointURL? <==> HasPrefix(endpoint, "http://") || HasPrefix(endpoint, "https://")
    ensures r.WithEndpointURL? ==> r.url == endpoint
    ensures r.WithEndpoint? ==> r.endpoint == endpoint
  {
    if HasPrefix(endpoint, "http://") || HasPrefix(endpoint, "https://") then WithEndpointURL(protocol, endpoint)
    else WithEndpoint(protocol, endpoint)
  }

  /** The samplers `buildSampler` builds. */
  datatype Sampler = AlwaysSample | NeverSample | TraceIdRatioBased(fraction: real) | ParentBased(root: Sampler)

  /** `parseRatio`: the parsed value, or the default for an empty or unparseable argument. */
  function ParseRatio(v: string, def: real, parsed: Option<real>): (r: real)
    ensures v == "" || parsed.None? ==> r == def
    ensures v != "" && parsed.Some? ==> r == parsed.value
  {
    if v == "" then def
    else if parsed.None? then def
    else parsed.value
  }

  /** `clamp01`: the nearest value in [0, 1]. */
  function Clamp01(f: real): (r: real)
    ensures 0.0 <= r <= 1.0
    ensures 0.0 <= f <= 1.0 ==> r == f
    ensures f < 0.0 ==> r == 0.0
    ensures f > 1.0 ==> r == 1.0
  {
    if f < 0.0 then 0.0
    else if f > 1.0 then 1.0
    else f
  }

  /** A sampler whose ratios are fractions and whose parent-based root is not parent-based itself. */
  predicate WellFormed(s: Sampler) {
    match s
    case TraceIdRatioBased(f) => 0.0 <= f <= 1.0
    case ParentBased(root) => !root.ParentBased? && WellFormed(root)
    case _ => true
  }

  const SamplerNames: set<string> := {"always_on", "always_off", "traceidratio", "parentbased_always_on",
                                      "parentbased_always_off", "parentbased_traceidratio"}

  /** `buildSampler`: the sampler the type names, with the argument as its ratio; an unknown type samples nothing a parent did not. */
  function BuildSampler(samplerType: string, arg: string, parsed: Option<real>): (s: Sampler)
    ensures WellFormed(s)
    ensures samplerType !in SamplerNames ==> s == ParentBased(NeverSample)
    ensures s.ParentBased? <==> samplerType !in {"always_on", "always_off", "traceidratio"}
  {
    var ratio := ParseRatio(arg, 1.0, parsed);
    if samplerType == "always_on" then AlwaysSample
    else if samplerType == "always_off" then NeverSample
    else if samplerType == "traceidratio" then TraceIdRatioBased(Clamp01(ratio))
    else if samplerType == "parentbased_always_on" then ParentBased(AlwaysSample)
    else if samplerType == "parentbased_always_off" then ParentBased(NeverSample)
    else if samplerType == "parentbased_traceidratio" then ParentBased(TraceIdRatioBased(Clamp01(ratio)))
    else ParentBased(NeverSample)
  }

  /**
   * The ratio samplers take the argument when it parses to a fraction, the
   * whole of the traces when it is empty or does not parse, and the nearest
   * bound otherwise.
   */
  lemma RatioFromArgument(arg: string, parsed: Option<real>)
    ensures var s := BuildSampler("traceidratio", arg, parsed);
            && (arg == "" || parsed.None? ==> s == TraceIdRatioBased(1.0))
            && (arg != "" && parsed.Some? && 0.0 <= parsed.value <= 1.0 ==> s == TraceIdRatioBased(parsed.value))
            && (arg != "" && parsed.Some? && parsed.value > 1.0 ==> s == TraceIdRatioBased(1.0))
            && (arg != "" && parsed.Some? && parsed.value < 0.0 ==> s == TraceIdRatioBased(0.0))
            && BuildSampler("parentbased_traceidratio", arg, parsed) == ParentBased(s)
  {
  }
}
