/**
 * Readiness of the network elements: each element class decides from its
 * parameters, the simulation mode and (for amplifiers) the equipment catalog
 * whether all required parameters are entered.
 */
module Readiness {
  /** The placeholder that the type and format selectors show until a choice is made. */
  const Unselected: string := "-- select --"

  /** Simulation modes named by the source. */
  const Automatic: string := "Automatic"
  const Advanced: string := "Advanced"
  const Mixed: string := "Mixed"

  /** The two fields of an amplifier catalog entry that readiness looks at. */
  datatype AmpSpec = AmpSpec(gainMin: real, gainFlatmax: real)

  /** The 'Edfa' section of the equipment catalog, keyed by type_variety. */
  type Catalog = map<string, AmpSpec>

  datatype Kind = Roadm | Edfa | Transceiver | Fused | Fiber

  /** The parameter list of each element class. */
  datatype Params =
    | RoadmParams(loss: real)
    | EdfaParams(gainTarget: real, tiltTarget: real, typeVariety: string)
    | TransceiverParams(typeVariety: string, trxFormat: string)
    | FusedParams(loss: real)
    | FiberParams(length: real, lossCoef: real, typeVariety: string)

  function KindOf(p: Params): Kind
  {
    match p
    case RoadmParams(_) => Roadm
    case EdfaParams(_, _, _) => Edfa
    case TransceiverParams(_, _) => Transceiver
    case FusedParams(_) => Fused
    case FiberParams(_, _, _) => Fiber
  }

  /** The class defaults of each element's parameters. */
  function Defaults(k: Kind): (p: Params)
    ensures KindOf(p) == k
  {
    match k
    case Roadm => RoadmParams(17.0)
    case Edfa => EdfaParams(0.0, 0.0, Unselected)
    case Transceiver => TransceiverParams(Unselected, Unselected)
    case Fused => FusedParams(0.5)
    case Fiber => FiberParams(0.0, 0.2, Unselected)
  }

  /**
   * What _ensure_ready does to the ready flag: it sets it to a value, or the
   * amplifier's catalog lookup raises a KeyError and the flag is left alone.
   */
  datatype Outcome = Ready(value: bool) | UnknownType(typeVariety: string)

  predicate Chosen(s: string) { s != Unselected }

  predicate AdvancedMode(mode: string) { mode == Advanced || mode == Mixed }

  /**
   * _ensure_ready of every element class. Roadm and Fused accept any
   * attenuation; a transceiver needs both selectors chosen; a fiber needs a
   * positive length; an amplifier needs its type chosen and, in the Advanced
   * and Mixed modes, a gain target within the catalog's range for that type.
   */
  function EnsureReady(p: Params, mode: string, catalog: Catalog): (r: Outcome)
    ensures p.RoadmParams? || p.FusedParams? ==> r == Ready(true)
    ensures p.TransceiverParams? ==> r == Ready(Chosen(p.typeVariety) && Chosen(p.trxFormat))
    ensures p.FiberParams? ==> r == Ready(p.length > 0.0)
    ensures p.EdfaParams? && !Chosen(p.typeVariety) ==> r == Ready(false)
    ensures p.EdfaParams? && Chosen(p.typeVariety) && mode == Automatic ==> r == Ready(true)
    ensures p.EdfaParams? && Chosen(p.typeVariety) && AdvancedMode(mode) ==>
              if p.typeVariety in catalog then
                r == Ready(catalog[p.typeVariety].gainMin <= p.gainTarget <= catalog[p.typeVariety].gainFlatmax)
              else r == UnknownType(p.typeVariety)
    ensures p.EdfaParams? && mode != Automatic && !AdvancedMode(mode) ==> r == Ready(false)
    ensures r.UnknownType? <==> p.EdfaParams? && Chosen(p.typeVariety) && AdvancedMode(mode) && p.typeVariety !in catalog
  {
    match p
    case RoadmParams(_) => Ready(true)
    case EdfaParams(gainTarget, _, typeVariety) =>
      if mode == Automatic && typeVariety != Unselected then Ready(true)
      else if (mode == Advanced || mode == Mixed) && typeVariety != Unselected then
        if typeVariety !in catalog then UnknownType(typeVariety)
        else
          var amp := catalog[typeVariety];
          Ready(amp.gainFlatmax >= gainTarget >= amp.gainMin)
      else Ready(false)
    case TransceiverParams(typeVariety, trxFormat) =>
      Ready(typeVariety != Unselected && trxFormat != Unselected)
    case FusedParams(_) => Ready(true)
    case FiberParams(length, _, _) => Ready(length > 0.0)
  }

  /**
   * The ready flag of a freshly created element. The constructor sets it to
   * True in Automatic mode only; that change fires the readiness check on
   * the class defaults, whose result is final (a second change fires the
   * check again, which gives the same value). So only a Roadm or a Fused
   * element starts ready, and only in Automatic mode.
   */
  function InitialReady(k: Kind, mode: string): (r: bool)
    ensures r <==> mode == Automatic && (k == Roadm || k == Fused)
  {
    if mode == Automatic then
      var o := EnsureReady(Defaults(k), mode, map[]);
      o.Ready? && o.value
    else false
  }

  /** Outside the amplifier, readiness does not depend on the mode or the catalog. */
  lemma ModeIndependent(p: Params, m1: string, m2: string, c1: Catalog, c2: Catalog)
    requires !p.EdfaParams?
    ensures EnsureReady(p, m1, c1) == EnsureReady(p, m2, c2)
  {
  }

  /**
   * Switching an amplifier with a chosen type from Automatic to Advanced
   * keeps it ready exactly when its gain target is within its catalog range.
   */
  lemma AmplifierModeSwitch(p: Params, catalog: Catalog)
    requires p.EdfaParams? && Chosen(p.typeVariety) && p.typeVariety in catalog
    ensures EnsureReady(p, Automatic, catalog) == Ready(true)
    ensures EnsureReady(p, Advanced, catalog) == EnsureReady(p, Mixed, catalog)
    ensures EnsureReady(p, Advanced, catalog).value <==>
              catalog[p.typeVariety].gainMin <= p.gainTarget <= catalog[p.typeVariety].gainFlatmax
  {
  }
}
