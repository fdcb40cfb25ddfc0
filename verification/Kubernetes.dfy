/** The API server as the worker sees it: the Kubernetes Jobs of one logical job, and the calls of
    k8s.io/client-go that pkg/worker uses on them. */
module Kubernetes {
  import P = Protocol

  /** No name twice. */
  predicate Distinct(items: seq<P.Name>) {
    forall i, j :: 0 <= i < j < |items| ==> items[i] != items[j]
  }

  /** The Jobs at the start and after every step that can change them, and every answer given and every such step. */
  datatype Record = Record(seen: seq<P.Cluster>, log: seq<P.Action>)

  /** The steps that can change which Jobs there are. */
  predicate Moves(a: P.Action) {
    a.Create? || a.JobEnds? || a.JobVanishes?
  }

  /** Those, and the answers that change nothing. */
  predicate Served(a: P.Action) {
    Moves(a) || a.Get? || a.List? || a.DryRunAnswer?
  }

  function Extended(r: Record, a: P.Action, jobs: P.Cluster): Record {
    Record(if Moves(a) then r.seen + [jobs] else r.seen, if Served(a) then r.log + [a] else r.log)
  }

  class ApiServer {
    var jobs: P.Cluster
    ghost var record: Record

    /** Which deletions were accepted, and what each poll for a deleted Job saw. */
    ghost var deletions: seq<bool>
    ghost var polls: seq<bool>

    constructor (jobs: P.Cluster)
      ensures this.jobs == jobs && record == Record([jobs], []) && deletions == [] && polls == []
    {
      this.jobs := jobs;
      record, deletions, polls := Record([jobs], []), [], [];
    }

    /** A Create is settled before it is answered, and refused only for a name without an object; the answer may be
        lost. */
    method Create(n: P.Name) returns (answer: P.CreateAnswer)
      modifies this`jobs, this`record
      ensures P.CreatePossible(P.ALL_HYPOTHESES, old(jobs), n, answer)
      ensures jobs == P.JobsAfterCreate(old(jobs), n, answer)
      ensures record == Extended(old(record), P.Create(answer), jobs)
    {
      var answerLost, refused := *, *;
      if n in jobs {
        answer := if answerLost then P.Ambiguous(false) else P.AlreadyExists;
      } else if refused {
        answer := if answerLost then P.Ambiguous(false) else P.Rejected;
      } else {
        jobs := jobs[n := P.Unfinished];
        answer := if answerLost then P.Ambiguous(true) else P.Created;
      }
      record := Extended(record, P.Create(answer), jobs);
    }

    /** A Create with the dry-run option: admission only. */
    method DryRun() returns (passed: bool)
      modifies this`record
      ensures record == Extended(old(record), P.DryRunAnswer(passed), jobs)
    {
      passed := *;
      record := Extended(record, P.DryRunAnswer(passed), jobs);
    }

    /** A Get fails, or says what is there; an ended Job shows its condition sooner or later. */
    method Get(n: P.Name) returns (got: P.GetAnswer)
      modifies this`record
      ensures P.GetPossible(jobs, n, got)
      ensures record == Extended(old(record), P.Get(got), jobs)
    {
      var failed, shown, complete := *, *, *;
      if failed {
        got := P.GetError;
      } else if n !in jobs {
        got := P.NotFound;
      } else if jobs[n].Ended? && shown {
        got := if complete then P.CompleteCondition else P.FailedCondition;
      } else {
        got := P.NoCondition;
      }
      record := Extended(record, P.Get(got), jobs);
    }

    /** A List fails, or names every Job once. */
    method List() returns (ok: bool, items: seq<P.Name>)
      modifies this`record
      ensures Distinct(items)
      ensures ok ==> forall n :: n in items <==> n in jobs
      ensures record == Extended(old(record), P.List(ok), jobs)
    {
      ok := *;
      items := [];
      var rest := jobs.Keys;
      while rest != {}
        invariant rest <= jobs.Keys && Distinct(items)
        invariant forall n :: n in items <==> n in jobs.Keys - rest
        decreases |rest|
      {
        var n :| n in rest;
        assert n !in items;
        items := items + [n];
        rest := rest - {n};
      }
      record := Extended(record, P.List(ok), jobs);
    }

    /** A foreground Delete only asks: the object stays until its Pods are gone, if the request was accepted. */
    method Delete(n: P.Name) returns (accepted: bool)
      modifies this`deletions
      ensures deletions == old(deletions) + [accepted]
    {
      accepted := *;
      deletions := deletions + [accepted];
    }

    /** A Get that waits for a deletion: NotFound, or anything else. */
    method Absent(n: P.Name) returns (absent: bool)
      modifies this`polls
      ensures absent ==> n !in jobs
      ensures polls == old(polls) + [absent]
    {
      var failed := *;
      absent := !failed && n !in jobs;
      polls := polls + [absent];
    }

    /** What happens by itself: a Job ends, or its object disappears. */
    method Passes() returns (ghost move: P.Action)
      requires jobs != map[]
      modifies this`jobs, this`record
      ensures move.JobEnds? || move.JobVanishes?
      ensures move.n in old(jobs)
      ensures jobs == if move.JobEnds? then old(jobs)[move.n := P.Ended] else old(jobs) - {move.n}
      ensures record == Extended(old(record), move, jobs)
    {
      var n :| n in jobs;
      var ends := *;
      if ends {
        jobs := jobs[n := P.Ended];
        move := P.JobEnds(n);
      } else {
        jobs := jobs - {n};
        move := P.JobVanishes(n);
      }
      record := Extended(record, move, jobs);
    }
  }

  /** Over a whole record, a Job took effect only while every other Job had ended. */
  ghost predicate NeverOverlapped(seen: seq<P.Cluster>) {
    forall i :: 0 < i < |seen| ==> P.JobsStartAlone(seen[i - 1], seen[i])
  }

  /** Two unfinished Jobs are one Job. */
  ghost predicate OneUnfinished(jobs: P.Cluster) {
    forall n, m :: n in jobs && m in jobs && jobs[n].Unfinished? && jobs[m].Unfinished? ==> n == m
  }

  ghost predicate AllEnded(jobs: P.Cluster) {
    forall n :: n in jobs ==> jobs[n].Ended?
  }
}
