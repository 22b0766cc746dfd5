/** The observer's see-invisible level. */
module Visibility {
  import opened Wrappers
  import opened EntityStore

  /** The sight component of the entity the local session is attached to, if
      there is a session, an attached entity and such a component. */
  function ObserverSight(w: World): (s: Option<SByte>)
    ensures s.Some? ==>
      && w.localSession.Some?
      && w.localSession.value.attached.Some?
      && Components(w, w.localSession.value.attached.value).sight == s
  {
    match w.localSession
    case None => None
    case Some(session) =>
      match session.attached
      case None => None
      case Some(id) => Components(w, id).sight
  }

  /** The see-invisible level used to judge visibility: it fails open to the
      maximum when the observer or its sight component is unknown. */
  function SeeInvisible(w: World): (s: SByte)
    ensures w.localSession.None? ==> s == MaxSight
    ensures w.localSession.Some? && w.localSession.value.attached.None? ==> s == MaxSight
    ensures w.localSession.Some? && w.localSession.value.attached.Some? ==>
      var info := Components(w, w.localSession.value.attached.value);
      s == (if info.sight.Some? then info.sight.value else MaxSight)
  {
    if w.localSession.None? then MaxSight
    else match ObserverSight(w)
      case None => MaxSight
      case Some(level) => level
  }
}
