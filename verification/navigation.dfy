/** The relative state shared by navigation, guidance and control, and the
    full-knowledge navigation filter that produces it from one telemetry sample. */
module RelativeStates {

  /** An in-plane 4-vector (radial, along-track, radial rate, along-track rate) and an
      out-of-plane 2-vector (cross-track, cross-track rate). */
  datatype PlaneStates = PlaneStates(inPlane: seq<real>, outOfPlane: seq<real>)

  predicate Valid(s: PlaneStates)
  {
    |s.inPlane| == 4 && |s.outOfPlane| == 2
  }

  /** Plane states of the right shapes, as a guidance signal produces them. */
  type ValidPlaneStates = s: PlaneStates | Valid(s) witness PlaneStates([0.0, 0.0, 0.0, 0.0], [0.0, 0.0])
}

module Navigation {
  import opened LinearAlgebra
  import opened RelativeStates

  /** One telemetry read: universal time, relative position and relative velocity, each
      vector in (radial, along-track, cross-track) order. */
  datatype Sample = Sample(ut: real, relPos: Vector, relVel: Vector)

  predicate WellFormed(s: Sample)
  {
    |s.relPos| == 3 && |s.relVel| == 3
  }

  /** `FullKnowledgeNavigation.output`: repartitions a relative position and a relative
      velocity (radial, along-track, cross-track) into the two plane states. */
  function Output(relPos: Vector, relVel: Vector): (s: PlaneStates)
    requires |relPos| == 3 && |relVel| == 3
    ensures Valid(s)
    ensures s.inPlane[0] == relPos[0] && s.inPlane[1] == relPos[1]
    ensures s.inPlane[2] == relVel[0] && s.inPlane[3] == relVel[1]
    ensures s.outOfPlane[0] == relPos[2] && s.outOfPlane[1] == relVel[2]
  {
    PlaneStates([relPos[0], relPos[1], relVel[0], relVel[1]], [relPos[2], relVel[2]])
  }

  /** The inverse repartition, back to (position, velocity). */
  function Recombine(s: PlaneStates): (pv: (Vector, Vector))
    requires Valid(s)
    ensures |pv.0| == 3 && |pv.1| == 3
  {
    ([s.inPlane[0], s.inPlane[1], s.outOfPlane[0]], [s.inPlane[2], s.inPlane[3], s.outOfPlane[1]])
  }

  /** No telemetry value is lost or altered by the repartition. */
  lemma RecombineOutput(relPos: Vector, relVel: Vector)
    requires |relPos| == 3 && |relVel| == 3
    ensures Recombine(Output(relPos, relVel)) == (relPos, relVel)
  {
    var pv := Recombine(Output(relPos, relVel));
    Equal3(pv.0, relPos);
    Equal3(pv.1, relVel);
  }

  /** Every plane state arises from exactly one telemetry sample. */
  lemma OutputRecombine(s: PlaneStates)
    requires Valid(s)
    ensures Output(Recombine(s).0, Recombine(s).1) == s
  {
    var t := Output(Recombine(s).0, Recombine(s).1);
    Equal4(t.inPlane, s.inPlane);
    Equal2(t.outOfPlane, s.outOfPlane);
  }
}
