/** DegreeAngles is a matter of notation: the same store results from a file in radians throughout. */
module AsiUnits {
  import opened Options
  import opened AsiModel

  /** The unit mode in force after the given lines. */
  function Mode(mode: bool, cs: seq<Command>): bool {
    if cs == [] then mode
    else if cs[|cs| - 1].DegreeAngles? then cs[|cs| - 1].val == 1
    else Mode(mode, cs[..|cs| - 1])
  }

  /** One line rewritten to radians, given the mode it was written in. */
  function InRadians(mode: bool, c: Command): Command {
    match c
    case DegreeAngles(val) => if val == 1 then DegreeAngles(0) else c
    case BeamUse(id, BeamDataRAE(t, az, el, range)) =>
      if mode then BeamUse(id, BeamDataRAE(t, az * DEG2RAD, el * DEG2RAD, range)) else c
    case GateUse(id, GateDataRAE(t, az, el, w, h, start, end, center)) =>
      if mode
      then GateUse(id, GateDataRAE(t, az * DEG2RAD, el * DEG2RAD, w * DEG2RAD, h * DEG2RAD, start, end, center))
      else c
    case _ => c
  }

  function FileInRadians(mode: bool, cs: seq<Command>): seq<Command> {
    if cs == [] then []
    else
      var front := cs[..|cs| - 1];
      FileInRadians(mode, front) + [InRadians(Mode(mode, front), cs[|cs| - 1])]
  }

  lemma RecordInMode(s: State, mode: bool, id: AsiId, kind: Kind, e: Option<Event>)
    ensures Record(s.(degreeAngles := mode), id, kind, e) == Record(s, id, kind, e).(degreeAngles := mode)
  {
    if Put(s.store, s.idMap, id, kind, e).Some? { } else { }
  }

  lemma PlatformInMode(s: State, mode: bool, id: AsiId, a: PlatformAction)
    ensures UsePlatform(s.(degreeAngles := mode), id, a) == UsePlatform(s, id, a).(degreeAngles := mode)
  {
    var s1 := if id in s.idMap then s else s.(idMap := s.idMap[id := 0]);
    RecordInMode(s1, mode, id, PlatformKind, Some(PlatformEvent(s, a)));
  }

  lemma CreateBeamInMode(s: State, mode: bool, id: AsiId)
    ensures CreateBeamIfNeeded(s.(degreeAngles := mode), id) == CreateBeamIfNeeded(s, id).(degreeAngles := mode)
  {
    if id in s.pendingBeams { } else { }
  }

  lemma CreateGateInMode(s: State, mode: bool, id: AsiId)
    ensures CreateGateIfNeeded(s.(degreeAngles := mode), id) == CreateGateIfNeeded(s, id).(degreeAngles := mode)
  {
    if id in s.pendingGates { } else { }
  }

  lemma BeamInRadians(s: State, id: AsiId, a: BeamAction)
    ensures InRadians(s.degreeAngles, BeamUse(id, a)).BeamUse?
    ensures var b := InRadians(s.degreeAngles, BeamUse(id, a));
            b.id == id && BeamEvent(s.(degreeAngles := false), b.beam) == BeamEvent(s, a)
  {
  }

  lemma GateInRadians(s: State, id: AsiId, a: GateAction)
    ensures InRadians(s.degreeAngles, GateUse(id, a)).GateUse?
    ensures var g := InRadians(s.degreeAngles, GateUse(id, a));
            g.id == id && GateEvent(s.(degreeAngles := false), g.gate) == GateEvent(s, a)
  {
  }

  lemma BeamInMode(s: State, mode: bool, id: AsiId, a: BeamAction)
    requires !a.BeamDataRAE?
    ensures UseBeam(s.(degreeAngles := mode), id, a) == UseBeam(s, id, a).(degreeAngles := mode)
  {
    var s1 := CreateBeamIfNeeded(s, id);
    CreateBeamInMode(s, mode, id);
    RecordInMode(s1, mode, id, BeamKind, BeamEvent(s1, a));
  }

  lemma GateInMode(s: State, mode: bool, id: AsiId, a: GateAction)
    requires !a.GateDataRAE?
    ensures UseGate(s.(degreeAngles := mode), id, a) == UseGate(s, id, a).(degreeAngles := mode)
  {
    var s1 := CreateGateIfNeeded(s, id);
    CreateGateInMode(s, mode, id);
    RecordInMode(s1, mode, id, GateKind, Some(GateEvent(s1, a)));
  }

  /** Beam widths, projector fields of view and platform angles are never subject to the mode. */
  lemma OnlyRaeLinesDependOnMode(s: State, c: Command, mode: bool)
    requires !(c.BeamUse? && c.beam.BeamDataRAE?) && !(c.GateUse? && c.gate.GateDataRAE?) && !c.DegreeAngles?
    ensures Step(s.(degreeAngles := mode), c) == Step(s, c).(degreeAngles := mode)
  {
    if s.faulted {
      return;
    }
    match c
    case PlatformID(id) =>
    case PlatformUse(id, a) => PlatformInMode(s, mode, id, a);
    case BeamID(host, id) => if host !in s.idMap || id in s.pendingBeams { } else { }
    case BeamAttribute(id, a) =>
    case BeamUse(id, a) => BeamInMode(s, mode, id, a);
    case GateID(host, id) => if host !in s.idMap || id in s.pendingGates { } else { }
    case GateType(id, text) =>
    case GateUse(id, a) => GateInMode(s, mode, id, a);
    case ProjectorID(host, id) => if host !in s.idMap { } else { }
    case ProjectorUse(id, a) => RecordInMode(s, mode, id, ProjectorKind, Some(ProjectorEvent(s, a)));
    case ReferenceYear(year) =>
    case Unrecognized =>
  }

  lemma StepInRadians(s: State, c: Command)
    ensures Step(s.(degreeAngles := false), InRadians(s.degreeAngles, c)) == Step(s, c).(degreeAngles := false)
  {
    if !s.faulted {
      match c
      case BeamUse(id, a) =>
        var s1 := CreateBeamIfNeeded(s, id);
        CreateBeamInMode(s, false, id);
        BeamInRadians(s1, id, a);
        RecordInMode(s1, false, id, BeamKind, BeamEvent(s1, a));
      case GateUse(id, a) =>
        var s1 := CreateGateIfNeeded(s, id);
        CreateGateInMode(s, false, id);
        GateInRadians(s1, id, a);
        RecordInMode(s1, false, id, GateKind, Some(GateEvent(s1, a)));
      case DegreeAngles(val) =>
      case _ => OnlyRaeLinesDependOnMode(s, c, false);
    }
  }

  /** Only the DegreeAngles line changes the mode. */
  lemma StepMode(s: State, c: Command)
    ensures !s.faulted && c.DegreeAngles? ==> Step(s, c).degreeAngles == (c.val == 1)
    ensures !c.DegreeAngles? ==> Step(s, c).degreeAngles == s.degreeAngles
  {
    if c.BeamUse? {
      var s1 := CreateBeamIfNeeded(s, c.id);
      CreateBeamInMode(s, s.degreeAngles, c.id);
      RecordInMode(s1, s.degreeAngles, c.id, BeamKind, BeamEvent(s1, c.beam));
    } else if c.GateUse? {
      var s1 := CreateGateIfNeeded(s, c.id);
      CreateGateInMode(s, s.degreeAngles, c.id);
      RecordInMode(s1, s.degreeAngles, c.id, GateKind, Some(GateEvent(s1, c.gate)));
    } else if !c.DegreeAngles? {
      OnlyRaeLinesDependOnMode(s, c, s.degreeAngles);
      assert s.(degreeAngles := s.degreeAngles) == s;
    }
  }

  lemma {:induction false} RunMode(s: State, cs: seq<Command>)
    requires !Run(s, cs).faulted
    ensures Run(s, cs).degreeAngles == Mode(s.degreeAngles, cs)
  {
    if cs != [] {
      StepMode(Run(s, cs[..|cs| - 1]), cs[|cs| - 1]);
      RunMode(s, cs[..|cs| - 1]);
    }
  }

  /**
    Rewriting a file to radians changes nothing but the mode flag: the store, the id map, everything pending,
    the counts and the time window are equal, and so is the line at which a bad file stops.
   */
  lemma {:induction false} RadiansPreserveMeaning(s: State, cs: seq<Command>)
    ensures Run(s.(degreeAngles := false), FileInRadians(s.degreeAngles, cs)) == Run(s, cs).(degreeAngles := false)
  {
    if cs != [] {
      var front, last := cs[..|cs| - 1], cs[|cs| - 1];
      RadiansPreserveMeaning(s, front);
      var front', s1 := FileInRadians(s.degreeAngles, front), Run(s, front);
      var all := front' + [InRadians(Mode(s.degreeAngles, front), last)];
      assert all[..|all| - 1] == front' && all[|all| - 1] == InRadians(Mode(s.degreeAngles, front), last);
      if !s1.faulted {
        RunMode(s, front);
        StepInRadians(s1, last);
      }
    }
  }

  /** The rewritten file never asks for degrees, and rewriting it again from radians is the identity. */
  lemma {:induction false} RadiansAreFixed(mode: bool, cs: seq<Command>)
    ensures |FileInRadians(mode, cs)| == |cs|
    ensures forall k :: 0 <= k < |cs| ==> FileInRadians(mode, cs)[k] != DegreeAngles(1)
    ensures !Mode(false, FileInRadians(mode, cs))
    ensures FileInRadians(false, FileInRadians(mode, cs)) == FileInRadians(mode, cs)
  {
    if cs != [] {
      var front := cs[..|cs| - 1];
      RadiansAreFixed(mode, front);
      var all := FileInRadians(mode, cs);
      assert all[..|all| - 1] == FileInRadians(mode, front);
    }
  }
}
