/**
 Group membership over runs of the onboarding protocol: who joins a group, and who leaves one.
 */
module OnboardingGroups {
  import opened OnboardingModel
  import opened Directory
  import opened OnboardingProtocol

  /** The step adds the entry of a new hire to the group of the hire's department. */
  predicate JoinsGroup(s: State, e: Step, g: string, dn: Dn) {
    && e.JoinGroup? && e.added && e.job in s.tasks
    && s.tasks[e.job].profile.department == g && DnOf(s.tasks[e.job].profile.email) == dn
  }

  /** The step asks for entry `dn` to leave its groups: its user is offboarded for the first time, or rolled back. */
  predicate TakesFromGroups(s: State, e: Step, dn: Dn) {
    && (e.OffboardDirectory? || e.RollbackDirectory? || e.RollbackCommit?) && e.dn == dn
    && e.handler in s.handlers && dn in Matching(s.dir, s.handlers[e.handler].user)
    && (if e.OffboardDirectory? then !IsOffboarded(s.dir.entries[dn])
        else e.RollbackDirectory? || s.handlers[e.handler].pc == RollbackChecked(true))
  }

  /** And does leave this one: the server does not refuse, and another member stays. */
  predicate LeavesGroup(s: State, e: Step, g: string, dn: Dn) {
    TakesFromGroups(s, e, dn) && g !in e.answer.refusing && g in s.dir.groups && s.dir.groups[g] != {dn}
  }

  predicate Member(s: State, g: string, dn: Dn) {
    g in s.dir.groups && dn in s.dir.groups[g]
  }

  // ---------------------------------------------------------------- one step

  lemma LeavingMembers(d: Contents, leaver: Dn, refusing: set<string>, g: string, dn: Dn)
    requires g in d.groups
    ensures g in LeftGroups(d, leaver, refusing).groups
    ensures dn in LeftGroups(d, leaver, refusing).groups[g] <==>
              dn in d.groups[g] && !(dn == leaver && g !in refusing && d.groups[g] != {dn})
  {
    LeavingGroups(d, leaver, refusing);
    var left := LeftGroups(d, leaver, refusing).groups[g];
    assert dn in left - {leaver} <==> dn in d.groups[g] - {leaver};
  }

  lemma RolledBackMembers(s: State, e: Step, g: string, dn: Dn)
    requires Enabled(s, e) && PurgedUser(s, e).Some? && g in s.dir.groups
    ensures g in DirAfter(s, e).groups
    ensures dn in DirAfter(s, e).groups[g] <==> dn in s.dir.groups[g] && !LeavesGroup(s, e, g, dn)
  {
    if e.dn in Matching(s.dir, PurgedUser(s, e).value) {
      RemovingEntry(s.dir, e.dn, e.answer);
      LeavingMembers(s.dir, e.dn, e.answer.refusing, g, dn);
    }
  }

  lemma OffboardedMembers(s: State, e: Step, g: string, dn: Dn)
    requires Enabled(s, e) && e.OffboardDirectory? && g in s.dir.groups
    ensures g in DirAfter(s, e).groups
    ensures dn in DirAfter(s, e).groups[g] <==> dn in s.dir.groups[g] && !LeavesGroup(s, e, g, dn)
  {
    LeavingMembers(s.dir, e.dn, e.answer.refusing, g, dn);
  }

  lemma JoinedMembers(s: State, e: Step, g: string, dn: Dn)
    requires Enabled(s, e) && e.JoinGroup?
    ensures g in DirAfter(s, e).groups && dn in DirAfter(s, e).groups[g] <==>
              Member(s, g, dn) || JoinsGroup(s, e, g, dn)
  {
    var joiner, department := DnOf(s.tasks[e.job].profile.email), s.tasks[e.job].profile.department;
    JoiningGroup(s.dir, department, joiner);
    var members := Joined(s.dir, department, joiner).groups[department];
    assert dn in members - {joiner} <==>
        dn in (if department in s.dir.groups then s.dir.groups[department] - {joiner} else {});
  }

  /** A group appears with its first member. */
  lemma GroupAppears(s: State, e: Step, g: string)
    requires Enabled(s, e) && g !in s.dir.groups
    ensures g in DirAfter(s, e).groups ==> e.JoinGroup? && exists dn :: JoinsGroup(s, e, g, dn)
  {
    if e.JoinGroup? {
      JoiningGroup(s.dir, s.tasks[e.job].profile.department, DnOf(s.tasks[e.job].profile.email));
      assert e.added ==>
          JoinsGroup(s, e, s.tasks[e.job].profile.department, DnOf(s.tasks[e.job].profile.email));
    } else if PurgedUser(s, e).Some? {
      LeavingGroups(s.dir, e.dn, e.answer.refusing);
      RemovingEntry(s.dir, e.dn, e.answer);
    } else if e.OffboardDirectory? {
      LeavingGroups(s.dir, e.dn, e.answer.refusing);
    }
  }

  lemma MembersMove(s: State, e: Step, g: string, dn: Dn)
    requires Enabled(s, e)
    ensures g in DirAfter(s, e).groups && dn in DirAfter(s, e).groups[g] <==>
              (Member(s, g, dn) && !LeavesGroup(s, e, g, dn)) || JoinsGroup(s, e, g, dn)
  {
    if e.JoinGroup? {
      JoinedMembers(s, e, g, dn);
    } else if g !in s.dir.groups {
      GroupAppears(s, e, g);
    } else if PurgedUser(s, e).Some? {
      RolledBackMembers(s, e, g, dn);
    } else if e.OffboardDirectory? {
      OffboardedMembers(s, e, g, dn);
    } else {
      OthersKeepGroups(s, e, g, dn);
    }
  }

  lemma OthersKeepGroups(s: State, e: Step, g: string, dn: Dn)
    requires Enabled(s, e) && !e.JoinGroup? && PurgedUser(s, e).None? && !e.OffboardDirectory?
    ensures DirAfter(s, e).groups == s.dir.groups && !LeavesGroup(s, e, g, dn)
  {
  }

  // ---------------------------------------------------------------- over runs

  lemma MembersAtStep(r: Run, h: Hypotheses, i: nat, g: string, dn: Dn)
    requires IsRun(r, h) && i < |r.steps|
    ensures var s, e := r.states[i], r.steps[i];
            Member(r.states[i + 1], g, dn) <==>
              (Member(s, g, dn) && !LeavesGroup(s, e, g, dn)) || JoinsGroup(s, e, g, dn)
  {
    assert RunStep(r, h, i);
    MembersMove(r.states[i], r.steps[i], g, dn);
  }

  ghost predicate NeverLeaves(r: Run, k: nat, i: nat, g: string, dn: Dn)
    requires i <= |r.steps| < |r.states|
  {
    forall m | k <= m < i :: !LeavesGroup(r.states[m], r.steps[m], g, dn)
  }

  /** Step k put the entry into the group, and no step has taken it out since. */
  ghost predicate MemberSince(r: Run, k: nat, i: nat, g: string, dn: Dn)
    requires k < i <= |r.steps| < |r.states|
  {
    JoinsGroup(r.states[k], r.steps[k], g, dn) && NeverLeaves(r, k + 1, i, g, dn)
  }

  lemma MemberSinceStep(r: Run, n: nat, i: nat, g: string, dn: Dn)
    requires i == n + 1 <= |r.steps| < |r.states|
    ensures (exists k :: 0 <= k < i && MemberSince(r, k, i, g, dn)) <==>
              || JoinsGroup(r.states[n], r.steps[n], g, dn)
              || (&& !LeavesGroup(r.states[n], r.steps[n], g, dn)
                  && exists k :: 0 <= k < n && MemberSince(r, k, n, g, dn))
  {
    if JoinsGroup(r.states[n], r.steps[n], g, dn) {
      assert MemberSince(r, n, i, g, dn);
    }
    if k :| 0 <= k < n && MemberSince(r, k, n, g, dn) {
      assert !LeavesGroup(r.states[n], r.steps[n], g, dn) ==> MemberSince(r, k, i, g, dn);
    }
    if k :| 0 <= k < n && MemberSince(r, k, i, g, dn) {
      assert MemberSince(r, k, n, g, dn) && !LeavesGroup(r.states[n], r.steps[n], g, dn);
    }
  }

  /**
   With no hypothesis: an entry is in a group exactly if it was from the start or a task put it there, and since then
   neither an offboarding nor a rollback of that very entry has taken it out. Nobody else's joining, leaving,
   offboarding or rollback ever does.
   */
  lemma {:induction false} MembershipHistory(r: Run, h: Hypotheses, i: nat, g: string, dn: Dn)
    requires IsRun(r, h) && i < |r.states|
    ensures Member(r.states[i], g, dn) <==>
              || (Member(r.states[0], g, dn) && NeverLeaves(r, 0, i, g, dn))
              || exists k :: 0 <= k < i && MemberSince(r, k, i, g, dn)
  {
    if i > 0 {
      var n := i - 1;
      MembershipHistory(r, h, n, g, dn);
      MembersAtStep(r, h, n, g, dn);
      MemberSinceStep(r, n, i, g, dn);
      assert NeverLeaves(r, 0, i, g, dn) <==>
          NeverLeaves(r, 0, n, g, dn) && !LeavesGroup(r.states[n], r.steps[n], g, dn);
    }
  }
}
