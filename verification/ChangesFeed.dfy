/** The goroutine that follows the changes feed and asks for a job per suitable document. */
module ChangesFeed {
  import opened Documents
  import opened Text
  import opened SerialScheduler

  /** Goes through one batch, given what the database answers about each document, and lists the
      changes that a job is scheduled for. */
  method ProcessChanges(changes: seq<Change>, answers: seq<Answer>) returns (scheduled: seq<Change>)
    requires |changes| == |answers|
    ensures scheduled == Selected(changes, answers) && SchedulesPending(scheduled, changes, answers)
  {
    scheduled := [];
    for i := 0 to |changes|
      invariant scheduled == Selected(changes[..i], answers[..i])
    {
      var change, doc := changes[i], answers[i];
      assert changes[..i + 1] == changes[..i] + [change] && answers[..i + 1] == answers[..i] + [doc];
      SelectedOfAppend(changes[..i], answers[..i], change, doc);
      if change.deleted {
        continue;
      }
      if HasPrefix(change.id, "_user") {
        continue;
      }
      if doc.docType.None? {
        continue;
      }
      match doc.docType.value {
        case DatafileDoc | DatasetDoc | TrainingJobDoc | ClassifyJobDoc =>
          if doc.state == Some(Pending) {
            scheduled := scheduled + [change];
          }
        case _ =>
      }
    }
    assert changes[..|changes|] == changes && answers[..|answers|] == answers;
    ghost var at := SelectedArePicked(changes, answers);
  }

  /** One answer of the feed: something that cannot be decoded, such as a timeout, or up to `count`
      changes after the sequence number asked for, with the new number or without one. */
  datatype Poll = Undecodable | Batch(count: nat, numbered: bool)

  function UpTo(position: nat, count: nat, size: nat): (end: nat)
    requires position <= size
    ensures position <= end <= size
  {
    if position + count <= size then position + count else size
  }

  /** How far the decodable polls lead into a feed of the given size. */
  function Delivered(polls: seq<Poll>, size: nat): (n: nat)
    ensures n <= size
  {
    if polls == [] then 0
    else
      var n := Delivered(polls[..|polls| - 1], size);
      match polls[|polls| - 1]
      case Undecodable => n
      case Batch(count, _) => UpTo(n, count, size)
  }

  /** The changes that these answers contain. */
  function Contained(polls: seq<Poll>): nat {
    if polls == [] then 0
    else Contained(polls[..|polls| - 1]) + match polls[|polls| - 1] case Undecodable => 0 case Batch(count, _) => count
  }

  /** Nothing is skipped: what has been delivered is as much of the feed as the answers contain. */
  lemma {:induction false} AllIsDelivered(polls: seq<Poll>, size: nat)
    ensures Delivered(polls, size) == if Contained(polls) <= size then Contained(polls) else size
  {
    if polls != [] { AllIsDelivered(polls[..|polls| - 1], size); }
  }

  lemma {:induction false} SelectedOfConcat(x: seq<Change>, ax: seq<Answer>, y: seq<Change>, ay: seq<Answer>)
    requires |x| == |ax| && |y| == |ay|
    ensures Selected(x + y, ax + ay) == Selected(x, ax) + Selected(y, ay)
  {
    if y == [] {
      assert x + y == x && ax + ay == ax;
    } else {
      var n := |y| - 1;
      SelectedOfConcat(x, ax, y[..n], ay[..n]);
      assert x + y == x + y[..n] + [y[n]] && ax + ay == ax + ay[..n] + [ay[n]];
      SelectedOfAppend(x + y[..n], ax + ay[..n], y[n], ay[n]);
    }
  }

  lemma SelectedUpTo(feed: seq<Change>, answers: seq<Answer>, start: nat, end: nat)
    requires start <= end <= |feed| == |answers|
    ensures Selected(feed[..end], answers[..end]) == Selected(feed[..start], answers[..start])
              + Selected(feed[start..end], answers[start..end])
  {
    SelectedOfConcat(feed[..start], answers[..start], feed[start..end], answers[start..end]);
    assert feed[..start] + feed[start..end] == feed[..end] && answers[..start] + answers[start..end] == answers[..end];
  }

  /** The answers that make the handler return nil, which ends the feed: the first one if it cannot be
      decoded, and every one without a sequence number. */
  predicate EndsFeed(polls: seq<Poll>, i: nat)
    requires i < |polls|
  {
    if polls[i].Undecodable? then i == 0 else !polls[i].numbered
  }

  /** The feed ends if its first answer cannot be decoded, or if any answer has no sequence number. */
  lemma FeedEndsIff(polls: seq<Poll>)
    ensures (exists i :: 0 <= i < |polls| && EndsFeed(polls, i))
       <==> (polls != [] && polls[0] == Undecodable) || exists count :: Batch(count, false) in polls
  {
    if i :| 0 <= i < |polls| && EndsFeed(polls, i) {
      assert polls[i] == Undecodable || polls[i] == Batch(polls[i].count, false);
    }
    if polls != [] && polls[0] == Undecodable { assert EndsFeed(polls, 0); }
    if count :| Batch(count, false) in polls {
      var i :| 0 <= i < |polls| && polls[i] == Batch(count, false);
      assert EndsFeed(polls, i);
    }
  }

  /** Follows the feed through these answers, or up to the first that ends it. Polls that fail later
      on are repeated from the same place, so every change that was delivered is examined exactly
      once and in order. */
  method FollowChangesFeed(feed: seq<Change>, answers: seq<Answer>, polls: seq<Poll>)
    returns (scheduled: seq<Change>, died: bool, ghost handled: nat)
    requires |feed| == |answers|
    ensures handled <= |polls| && forall i :: 0 <= i < handled - 1 ==> !EndsFeed(polls, i)
    ensures died <==> exists i :: 0 <= i < |polls| && EndsFeed(polls, i)
    ensures if died then handled > 0 && EndsFeed(polls, handled - 1) else handled == |polls|
    ensures var n := Delivered(polls[..handled], |feed|);
            scheduled == Selected(feed[..n], answers[..n]) && SchedulesPending(scheduled, feed[..n], answers[..n])
  {
    scheduled, handled := [], 0;
    var since: Option<nat> := None;
    ghost var n := 0;
    for i := 0 to |polls|
      invariant handled == i && n == Delivered(polls[..i], |feed|) && (since == if i == 0 then None else Some(n))
      invariant forall j :: 0 <= j < i ==> !EndsFeed(polls, j)
      invariant scheduled == Selected(feed[..n], answers[..n])
    {
      assert polls[..i + 1][..i] == polls[..i];
      handled := i + 1;
      match polls[i] {
        case Undecodable =>
        case Batch(count, numbered) =>
          var start := if since.None? then 0 else since.value;
          var end := UpTo(start, count, |feed|);
          var batch := ProcessChanges(feed[start..end], answers[start..end]);
          SelectedUpTo(feed, answers, start, end);
          scheduled := scheduled + batch;
          n := end;
          since := if numbered then Some(end) else None;
      }
      if since.None? {
        assert EndsFeed(polls, i);
        ghost var at := SelectedArePicked(feed[..n], answers[..n]);
        return scheduled, true, handled;
      }
    }
    assert polls[..|polls|] == polls;
    ghost var at := SelectedArePicked(feed[..n], answers[..n]);
    died := false;
  }
}
