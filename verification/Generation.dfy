/** What the controller hands to a run is always something a run can build. */
module Generation {
  import opened RunMachine
  import opened RunCalm
  import opened RunRecovery
  import opened RunCompletion
  import opened RunBackward
  import Naming
  import Slicer

  function Spacers(rows: seq<Slicer.WallpaperRow>): seq<bool> {
    seq(|rows|, i requires 0 <= i < |rows| => rows[i].isSpacer)
  }

  /** A run made from the first rows of an alternating plan, with the generated names. */
  predicate Generated(job: Job, rows: seq<Slicer.WallpaperRow>, nested: bool, prefix: string) {
    && (forall i :: 0 <= i < |rows| ==> rows[i] == Slicer.AlternatingRow(i, nested))
    && job.depths == Slicer.Depths(rows)
    && |job.names| == |rows|
    && forall i :: 0 <= i < |rows| ==> job.names[i] == Naming.NameAt(prefix, Spacers(rows), i)
  }

  /** It runs through on every server that has the selected parent and no channel of a row's name
      right under it. */
  lemma GeneratedIsWelcome(job: Job, g: Shared, rows: seq<Slicer.WallpaperRow>, nested: bool, prefix: string)
    requires Generated(job, rows, nested, prefix) && RootLive(job, g)
    requires forall p, d :: 0 <= p < |job.names| && d in g.server && g.server[d].look.pid == job.root ==>
               g.server[d].look.name != job.names[p]
    ensures Welcome(job, g)
  {
    if |rows| > 0 {
      Slicer.PlanIsForest(rows, nested, 0);
    }
    forall p, q | 0 <= p < q < |job.names| ensures job.names[p] != job.names[q] {
      Naming.NamesDiffer(prefix, Spacers(rows), p, q);
    }
  }

  /** So every undisturbed generation completes, and its undisturbed undo leaves the server as it was. */
  lemma GeneratedThenUndone(s: State, rows: seq<Slicer.WallpaperRow>, nested: bool, prefix: string,
                            forth: seq<Event>, back: seq<Event>)
    requires Init(s) && KnownIds(s.g) && Generated(s.job, rows, nested, prefix) && RootLive(s.job, s.g)
    requires forall p, d :: 0 <= p < |s.job.names| && d in s.g.server && s.g.server[d].look.pid == s.job.root ==>
               s.g.server[d].look.name != s.job.names[p]
    requires AllCalm(forth, |s.workers|) && EndsBy(Claim(s, Resume), |s.workers|, forth)
    requires var completed := Run(Claim(s, Resume), forth);
      AllCalm(back, |completed.workers|) && EndsBy(Claim(completed, Undo), |completed.workers|, back)
    ensures var completed := Run(Claim(s, Resume), forth);
      RunCompleted(s.g, completed) && Run(Claim(completed, Undo), back).g.server == s.g.server
  {
    GeneratedIsWelcome(s.job, s.g, rows, nested, prefix);
    GenerateThenUndo(s, forth, back);
  }
}
