/** What a delivery for an execution without a status may be called: lost work is only
    reported when an ended execution would still have left its marker. */
module Evidence {
  import opened Common

  datatype Kind = Ended | Gone | Unattributed

  /** `retention` as the store reports it: negative when it cannot say, zero when it
      never expires state. `anchor` is the instant the age is measured from, zero when
      the task carries none. */
  function Classify(statusEnded: Option<bool>, markerFound: bool, retention: int, anchor: nat, now: nat): Kind {
    match statusEnded
    case Some(ended) => if ended then Ended else Gone
    case None =>
      if markerFound then Ended
      else if retention < 0 then Unattributed
      else if retention == 0 then Gone
      else if anchor == 0 then Unattributed
      else if now > anchor + retention then Unattributed
      else Gone
  }

  /** The creation stamp when there is one, the deliverable stamp otherwise. */
  function Anchor(created: nat, deliverable: nat): nat { if created != 0 then created else deliverable }

  /** Whether the marker of an execution that ended at `ended` is readable at `t`, if it
      is kept for `life`; a store that never expires keeps it for good. */
  predicate MarkerReadable(ended: Option<nat>, retention: int, life: nat, t: nat) {
    ended.Some? && ended.value <= t && (retention == 0 || t <= ended.value + life)
  }

  /** A delivery that carries its creation stamp and finds no status is never called
      gone when its execution had in fact ended by the time the marker was read, given
      that intents are created only while the execution is live and that the marker is
      kept for at least the retention the store reports. */
  lemma GoneIsSound(ended: Option<nat>, created: nat, deliverable: nat, retention: int, life: nat,
                    markerRead: nat, now: nat)
    requires created != 0 && markerRead <= now && (retention > 0 ==> life >= retention)
    requires ended.Some? ==> created <= ended.value
    requires Classify(None, MarkerReadable(ended, retention, life, markerRead), retention,
      Anchor(created, deliverable), now).Gone?
    ensures !(ended.Some? && ended.value <= markerRead)
  {
  }

  /** With a status the status decides, with a marker the execution has ended, and work is
      called lost without either if and only if an ended execution's marker would still be
      there: state never expires, or the age is known and within the retention. */
  lemma GoneIff(statusEnded: Option<bool>, markerFound: bool, retention: int, anchor: nat, now: nat)
    ensures var kind := Classify(statusEnded, markerFound, retention, anchor, now);
      && (kind.Ended? <==> statusEnded == Some(true) || (statusEnded.None? && markerFound))
      && (kind.Gone? <==>
            || statusEnded == Some(false)
            || (statusEnded.None? && !markerFound
                && (retention == 0 || (retention > 0 && anchor != 0 && now <= anchor + retention))))
  {
  }

  /** An unknown retention, or a finite one with no stamp to measure from, never yields
      gone when there is no status. */
  lemma UnknownNeverGone(markerFound: bool, retention: int, anchor: nat, now: nat)
    requires retention < 0 || (retention > 0 && anchor == 0)
    ensures !Classify(None, markerFound, retention, anchor, now).Gone?
  {
  }

  /** The instant at which an ended execution's delivery is misreported as gone. */
  predicate Misreported(ended: nat, retention: nat, anchor: nat, now: nat) {
    ended <= now && Classify(None, MarkerReadable(Some(ended), retention, retention, now), retention, anchor, now).Gone?
  }

  /** Measured from any anchor, an ended execution can be misreported at some instant if
      and only if the anchor lies after the end: which is why the deliverable stamp of a
      delayed intent is not a sound anchor. */
  lemma MisreportIffAnchorLate(ended: nat, retention: nat, anchor: nat)
    requires retention > 0 && anchor > 0
    ensures (exists now :: Misreported(ended, retention, anchor, now)) <==> anchor > ended
  {
    if anchor > ended { assert Misreported(ended, retention, anchor, ended + retention + 1); }
  }
}
