/** Sealing the incidents of a finished run commits only what replay accepts. */
module SealCommands {
  import opened States
  import opened Records
  import opened Replay
  import opened Commands
  import opened Invariant
  import opened Landing
  import opened Chains
  import opened IncidentCommands

  predicate Sealing(bundleId: Token, artifact: Artifact) {
    bundleId != 0 && artifact.reference != 0 && artifact.digest != 0
  }

  lemma SealIncidentFits(s: State, u: State, t: Target, r: Run, id: Token, bundleId: Token, artifact: Artifact,
      at: Time)
    requires id in s.incidents ==> id in u.incidents && u.incidents[id] == s.incidents[id]
    requires id in u.incidents ==> SoundIncident(u, u.incidents[id], at) && u.incidents[id].id == id
    requires Sealing(bundleId, artifact)
    requires SealIncident(s, t, r, id, bundleId, artifact, at).Ok?
    ensures var records := SealIncident(s, t, r, id, bundleId, artifact, at).value;
            || records == []
            || (&& |records| == 1 && records[0].body.IncidentBody?
                && records == [Entry(IncidentBody(records[0].body.incident))]
                && IncidentFits(u, records[0].body.incident) && records[0].body.incident.id == id)
  {}

  /** Incidents outside a list are the same in two projections. */
  ghost predicate Untouched(s: State, u: State, ids: seq<Token>) {
    forall id | id in s.incidents && id !in ids :: id in u.incidents && u.incidents[id] == s.incidents[id]
  }

  lemma SealOneReaches(u: State, id: Token, records: seq<Control>) returns (w: State)
    requires Inv(u)
    requires || records == []
             || (&& |records| == 1 && records[0].body.IncidentBody?
                 && records == [Entry(IncidentBody(records[0].body.incident))]
                 && IncidentFits(u, records[0].body.incident) && records[0].body.incident.id == id)
    ensures Reaches(u, records, w)
    ensures records == [] ==> w == u
    ensures records != [] ==> w == Put(u, records[0].body)
  {
    if records == [] {
      ReachesSelf(u);
      w := u;
    } else {
      var v := records[0].body.incident;
      w := Put(u, IncidentBody(v));
      IncidentFitsLands(u, v);
      ReachesOnce(u, Entry(IncidentBody(v)), w);
    }
  }

  lemma UntouchedAfter(s: State, u: State, w: State, ids: seq<Token>, id: Token, records: seq<Control>)
    requires Untouched(s, u, ids)
    requires records == [] ==> w == u
    requires records != [] ==>
            records[0].body.IncidentBody? && records[0].body.incident.id == id && w == Put(u, records[0].body)
    ensures Untouched(s, w, ids + [id])
  {}

  lemma OneMore(s: State, u: State, t: Target, r: Run, id: Token, bundleId: Token, artifact: Artifact, at: Time,
      ids: seq<Token>)
    returns (w: State)
    requires Inv(u) && Untouched(s, u, ids) && id !in ids && Sealing(bundleId, artifact)
    requires id in s.incidents ==> s.incidents[id].updatedAt <= at
    requires SealIncident(s, t, r, id, bundleId, artifact, at).Ok?
    ensures Reaches(u, SealIncident(s, t, r, id, bundleId, artifact, at).value, w) && Untouched(s, w, ids + [id])
  {
    SoundIncidentOf(u, id, at);
    SealIncidentFits(s, u, t, r, id, bundleId, artifact, at);
    w := SealOneReaches(u, id, SealIncident(s, t, r, id, bundleId, artifact, at).value);
    UntouchedAfter(s, u, w, ids, id, SealIncident(s, t, r, id, bundleId, artifact, at).value);
  }

  lemma SealAllUnfolds(s: State, t: Target, r: Run, ids: seq<Token>, bundleId: Token, artifact: Artifact, at: Time)
    requires ids != [] && Distinct(ids) && SealAll(s, t, r, ids, bundleId, artifact, at).Ok?
    ensures var front, last := ids[..|ids| - 1], ids[|ids| - 1];
            && ids == front + [last] && Distinct(front) && last !in front
            && SealAll(s, t, r, front, bundleId, artifact, at).Ok?
            && SealIncident(s, t, r, last, bundleId, artifact, at).Ok?
            && SealAll(s, t, r, ids, bundleId, artifact, at).value ==
               SealAll(s, t, r, front, bundleId, artifact, at).value
                   + SealIncident(s, t, r, last, bundleId, artifact, at).value
  {}

  lemma {:induction false} SealAllReaches(s: State, t: Target, r: Run, ids: seq<Token>, bundleId: Token,
      artifact: Artifact, at: Time)
    returns (u: State)
    requires Inv(s) && Distinct(ids) && Sealing(bundleId, artifact)
    requires forall id | id in s.incidents :: s.incidents[id].updatedAt <= at
    requires SealAll(s, t, r, ids, bundleId, artifact, at).Ok?
    ensures Reaches(s, SealAll(s, t, r, ids, bundleId, artifact, at).value, u) && Untouched(s, u, ids)
    decreases |ids|
  {
    if ids == [] {
      ReachesSelf(s);
      u := s;
    } else {
      SealAllUnfolds(s, t, r, ids, bundleId, artifact, at);
      var front, last := ids[..|ids| - 1], ids[|ids| - 1];
      var m := SealAllReaches(s, t, r, front, bundleId, artifact, at);
      u := OneMore(s, m, t, r, last, bundleId, artifact, at, front);
      ReachesFurther(s, SealAll(s, t, r, front, bundleId, artifact, at).value, m,
                     SealIncident(s, t, r, last, bundleId, artifact, at).value, u);
    }
  }

  lemma SealRunIncidentsWrites(s: State, id: Token, runId: Token, bundleId: Token, artifact: Artifact,
      incidentIds: seq<Token>, env: Env)
    requires SealRunIncidents(s, id, runId, bundleId, artifact, incidentIds, env).Written?
    ensures id in s.targets && HasRun(s.targets[id].runs, runId) && Sealing(bundleId, artifact)
    ensures var t, r := s.targets[id], s.targets[id].runs[RunIndex(s.targets[id].runs, runId)];
            && SealAll(s, t, r, Normalized(incidentIds), bundleId, artifact, env.stamp).Ok?
            && SealRunIncidents(s, id, runId, bundleId, artifact, incidentIds, env).records ==
               SealAll(s, t, r, Normalized(incidentIds), bundleId, artifact, env.stamp).value
  {}

  lemma SealRunIncidentsAgrees(s: State, id: Token, runId: Token, bundleId: Token, artifact: Artifact,
      incidentIds: seq<Token>, env: Env)
    requires Inv(s) && forall i | i in s.incidents :: s.incidents[i].updatedAt <= env.stamp
    ensures Agrees(s, SealRunIncidents(s, id, runId, bundleId, artifact, incidentIds, env))
  {
    if SealRunIncidents(s, id, runId, bundleId, artifact, incidentIds, env).Written? {
      SealRunIncidentsWrites(s, id, runId, bundleId, artifact, incidentIds, env);
      var t := s.targets[id];
      var r := t.runs[RunIndex(t.runs, runId)];
      var u := SealAllReaches(s, t, r, Normalized(incidentIds), bundleId, artifact, env.stamp);
      ReachedAgreed(s, SealAll(s, t, r, Normalized(incidentIds), bundleId, artifact, env.stamp).value, u);
    }
  }
}
