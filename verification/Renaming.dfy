/** What becomes of the files that process_file_transfer of condor_job/description.hpp wants renamed on
    their way back. It writes the local name in front of the remote one; Condor looks for the remote name
    in front. */
module Renaming {
  import opened Text
  import opened SubmitFile
  import opened OneSetting
  import opened Macros
  import opened JobDescriptions
  import opened Arrivals
  import opened Transfers

  /** The entry fetches a file under another name: right is the remote name, left the local one. */
  predicate Renames(t: Transfer) {
    t.Transfer? && t.direction.CopyRemoteLocal? && !t.sameLeaf
  }

  /** The first entry that renames something and has the local name. */
  predicate FirstWithLocalName(ts: seq<Transfer>, i: int, name: string) {
    && 0 <= i < |ts| && Renames(ts[i]) && ts[i].left == name
    && forall j | 0 <= j < i :: Renames(ts[j]) ==> ts[j].left != name
  }

  predicate IsLocalName(ts: seq<Transfer>, name: string) {
    exists t | t in ts :: Renames(t) && t.left == name
  }

  lemma NoneIsLocal(ts: seq<Transfer>, name: string)
    requires forall j | 0 <= j < |ts| :: Renames(ts[j]) ==> ts[j].left != name
    ensures !IsLocalName(ts, name)
  {
  }

  lemma FirstIsLocal(ts: seq<Transfer>, name: string)
    ensures (exists i :: FirstWithLocalName(ts, i, name)) ==> IsLocalName(ts, name)
  {
    if i :| FirstWithLocalName(ts, i, name) {
      assert ts[i] in ts;
    }
  }

  lemma {:induction false} LocalNamesBegin(ts: seq<Transfer>, name: string)
    ensures Begins(Renamed(ts), name) <==> IsLocalName(ts, name)
  {
    if ts != [] {
      var before, t := ts[..|ts| - 1], ts[|ts| - 1];
      LocalNamesBegin(before, name);
      assert forall x :: x in ts <==> x in before || x == t;
      if Renames(t) {
        assert Renamed(ts) == Renamed(before) + [(t.left, t.right)];
        assert forall p :: p in Renamed(ts) <==> p in Renamed(before) || p == (t.left, t.right);
      } else {
        assert Renamed(ts) == Renamed(before);
      }
    }
  }

  /** A file keeps its name unless it is the local name of an entry; then it gets the remote name of the
      first such entry. */
  lemma {:induction false} NameIs(ts: seq<Transfer>, name: string)
    ensures !IsLocalName(ts, name) ==> NameOnArrival(Renamed(ts), name) == name
    ensures forall i | FirstWithLocalName(ts, i, name) :: NameOnArrival(Renamed(ts), name) == ts[i].right
  {
    if ts != [] {
      var before, t := ts[..|ts| - 1], ts[|ts| - 1];
      NameIs(before, name);
      LocalNamesBegin(before, name);
      NameTurn(ts, name);
      LocalTurn(ts, name);
      hide Renamed;
      hide Begins;
      hide Renames;
      hide NameOnArrival;
      hide IsLocalName;
    }
  }

  /** The last entry decides if no earlier one has the local name. */
  lemma NameTurn(ts: seq<Transfer>, name: string)
    requires ts != []
    ensures var before, t := Renamed(ts[..|ts| - 1]), ts[|ts| - 1];
            NameOnArrival(Renamed(ts), name)
            == if Begins(before, name) then NameOnArrival(before, name)
               else if Renames(t) && t.left == name then t.right else name
  {
    var before, t := Renamed(ts[..|ts| - 1]), ts[|ts| - 1];
    var pair := if Renames(t) then [(t.left, t.right)] else [];
    assert Renamed(ts) == before + pair;
    hide Renamed;
    NameOfBoth(before, pair, name);
    if pair != [] {
      assert pair[1..] == [];
    }
    hide Begins;
  }

  lemma LocalTurn(ts: seq<Transfer>, name: string)
    requires ts != []
    ensures var before, t := ts[..|ts| - 1], ts[|ts| - 1];
            && (IsLocalName(ts, name) <==> IsLocalName(before, name) || (Renames(t) && t.left == name))
            && forall i | FirstWithLocalName(ts, i, name) ::
                 if i < |before| then FirstWithLocalName(before, i, name) && IsLocalName(before, name)
                 else !IsLocalName(before, name) && t == ts[i] && Renames(t) && t.left == name
  {
    var before, t := ts[..|ts| - 1], ts[|ts| - 1];
    hide Renames;
    assert forall x :: x in ts <==> x in before || x == t;
    forall i | FirstWithLocalName(ts, i, name)
      ensures if i < |before| then FirstWithLocalName(before, i, name) && IsLocalName(before, name)
              else !IsLocalName(before, name) && t == ts[i] && Renames(t) && t.left == name
    {
      assert forall j | 0 <= j < |before| :: before[j] == ts[j];
      if i < |before| {
        assert before[i] in before;
      } else {
        NoneIsLocal(before, name);
      }
    }
  }

  lemma FirstIsThere(ts: seq<Transfer>, name: string) returns (i: int)
    requires IsLocalName(ts, name)
    ensures FirstWithLocalName(ts, i, name)
  {
    i := 0;
    while !(Renames(ts[i]) && ts[i].left == name)
      invariant 0 <= i < |ts|
      invariant forall j | 0 <= j < i :: Renames(ts[j]) ==> ts[j].left != name
      decreases |ts| - i
    {
      if i + 1 == |ts| {
        NoneIsLocal(ts, name);
        assert false;
      }
      i := i + 1;
    }
  }

  /** A file that is to be renamed arrives under its local name if and only if the first entry whose local
      name is the remote name of this one has for its remote name the local name of this one. */
  lemma ArrivesAsAskedExactly(ts: seq<Transfer>, t: Transfer)
    requires t in ts && Renames(t) && t.left != t.right
    ensures NameOnArrival(Renamed(ts), t.right) == t.left
            <==> exists i :: FirstWithLocalName(ts, i, t.right) && ts[i].right == t.left
  {
    hide Renamed;
    NameIs(ts, t.right);
    if IsLocalName(ts, t.right) {
      var i := FirstIsThere(ts, t.right);
    }
    FirstIsLocal(ts, t.right);
  }

  /** If no local name is the remote name of another entry, no file is renamed. */
  lemma RemoteNamesStay(ts: seq<Transfer>, t: Transfer)
    requires forall x, y | x in ts && y in ts && Renames(x) && Renames(y) :: x.left != y.right
    requires t in ts && Renames(t)
    ensures NameOnArrival(Renamed(ts), t.right) == t.right != t.left
  {
    NameIs(ts, t.right);
    hide Renamed;
    hide Renames;
  }

  /** One file: asked for as result.txt, it comes back as out.txt. */
  lemma ResultComesBackAsOut()
    ensures var t := Transfer("result.txt", CopyRemoteLocal, "out.txt", false, false, false);
            Renamed([t]) == [("result.txt", "out.txt")] && NameOnArrival(Renamed([t]), "out.txt") == "out.txt"
  {
    var t := Transfer("result.txt", CopyRemoteLocal, "out.txt", false, false, false);
    assert [t][..0] == [] && Renamed([]) == [] && [] + [(t.left, t.right)] == [(t.left, t.right)];
    RemoteNamesStay([t], t);
  }

  /** Through the submit file: with the remaps that Condor reads, no file is renamed, if the pairs arrive at
      all and no local name is a remote name. */
  lemma RenamingIsLost(presets: Settings, jd: JobDescription, rm: ResourceManager, contexts: seq<Context>,
                       d: Dialect, macros: string -> string, t: Transfer)
    requires jd.fileTransfer.Some? && t in jd.fileTransfer.value && Renames(t)
    requires Undisturbed(presets + AdaptorSettings(jd, rm, contexts), "transfer_output_remaps")
    requires var ts := jd.fileTransfer.value;
             && RemapsCanArrive(Renamed(ts), d)
             && forall x, y | x in ts && y in ts && Renames(x) && Renames(y) :: x.left != y.right
    ensures var read := ReadSetting(presets + AdaptorSettings(jd, rm, contexts), "transfer_output_remaps");
            var used := Used(read, d, macros);
            && used.Some? && ReadQuotedRemaps(used.value).Some?
            && NameOnArrival(ReadQuotedRemaps(used.value).value, t.right) == t.right != t.left
  {
    hide *;
    var ts := jd.fileTransfer.value;
    RenamedIsThere(ts, t);
    RemapsArrive(presets, jd, rm, contexts, d, macros);
    RemapsArrivedIs(
      Used(ReadSetting(presets + AdaptorSettings(jd, rm, contexts), "transfer_output_remaps"), d, macros),
      Renamed(ts));
    RemoteNamesStay(ts, t);
  }

  lemma {:induction false} RenamedIsThere(ts: seq<Transfer>, t: Transfer)
    requires t in ts && Renames(t)
    ensures Renamed(ts) != []
  {
    if t != ts[|ts| - 1] {
      RenamedIsThere(ts[..|ts| - 1], t);
    }
  }

  lemma RemapsArrivedIs(used: Option<string>, pairs: seq<(string, string)>)
    ensures RemapsArrived(used, pairs) ==> used.Some? && ReadQuotedRemaps(used.value) == Some(pairs)
  {
    hide ReadQuotedRemaps;
  }
}
