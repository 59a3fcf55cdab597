/** What becomes of each vApp that a search returned: it is read, counts as gone, or is left unread. */
module Listing {
  import opened Basics

  datatype Listed = Listed(href: Id, name: Id)

  /** What one read comes to. A vApp counts as gone when its read said so, or by nothing but the text of an error. */
  datatype Answer = Found | NotFound | Misled | OtherFailure

  /** The position of the first read that fails without reading as not found, or the end. */
  function FirstFailure(answers: seq<Answer>): (i: nat)
    ensures i <= |answers|
    ensures i < |answers| ==> answers[i] == OtherFailure
    ensures forall j :: 0 <= j < i ==> answers[j] != OtherFailure
  {
    if answers == [] || answers[0] == OtherFailure then 0
    else
      var rest := FirstFailure(answers[1..]);
      assert forall j :: 0 < j < 1 + rest ==> answers[j] == answers[1..][j - 1];
      1 + rest
  }

  /** The items, in order, that were answered Found. */
  function FoundIn(listed: seq<Listed>, answers: seq<Answer>): seq<Listed>
    requires |listed| == |answers|
  {
    if listed == [] then []
    else
      var n := |listed| - 1;
      FoundIn(listed[..n], answers[..n]) + if answers[n] == Found then [listed[n]] else []
  }

  function Hrefs(listed: seq<Listed>): (hrefs: seq<Id>)
    ensures |hrefs| == |listed|
    ensures forall i :: 0 <= i < |listed| ==> hrefs[i] == listed[i].href
  {
    seq(|listed|, i requires 0 <= i < |listed| => listed[i].href)
  }

  datatype Fate = Read | Gone | Misjudged | Unread

  /** Where item i ends up; a misjudged one is dropped like one that is gone. */
  function FateOf(answers: seq<Answer>, i: nat): Fate
    requires i < |answers|
  {
    if i >= FirstFailure(answers) then Unread
    else match answers[i]
      case Found => Read
      case NotFound => Gone
      case _ => Misjudged
  }

  lemma {:induction false} FoundInHolds(listed: seq<Listed>, answers: seq<Answer>, v: Listed)
    requires |listed| == |answers|
    ensures v in FoundIn(listed, answers) <==> exists i :: 0 <= i < |listed| && listed[i] == v && answers[i] == Found
  {
    if listed != [] {
      var n := |listed| - 1;
      FoundInHolds(listed[..n], answers[..n], v);
      if v in FoundIn(listed[..n], answers[..n]) {
        var i :| 0 <= i < n && listed[..n][i] == v && answers[..n][i] == Found;
        assert listed[i] == v && answers[i] == Found;
      }
      if i :| 0 <= i < |listed| && listed[i] == v && answers[i] == Found {
        if i < n {
          assert listed[..n][i] == v && answers[..n][i] == Found;
        }
      }
    }
  }

  /**
   * When the listed HREFs differ, each item is in the read list, in the unread list, or in neither,
   * according to its fate; it is in neither only if its read said that it is gone, or seemed to.
   */
  lemma Partition(listed: seq<Listed>, answers: seq<Answer>, i: nat)
    requires |listed| == |answers| && i < |listed|
    requires forall j, k :: 0 <= j < k < |listed| ==> listed[j].href != listed[k].href
    ensures var stop := FirstFailure(answers);
            var vApps, unread := FoundIn(listed[..stop], answers[..stop]), Hrefs(listed[stop..]);
            && (listed[i] in vApps <==> FateOf(answers, i) == Read)
            && (listed[i].href in unread <==> FateOf(answers, i) == Unread)
            && (FateOf(answers, i) == Gone ==> answers[i] == NotFound)
            && (FateOf(answers, i) == Misjudged ==> answers[i] == Misled)
  {
    var stop := FirstFailure(answers);
    FoundInHolds(listed[..stop], answers[..stop], listed[i]);
    if FateOf(answers, i) == Read {
      assert listed[..stop][i] == listed[i] && answers[..stop][i] == Found;
    }
    if FateOf(answers, i) == Unread {
      assert Hrefs(listed[stop..])[i - stop] == listed[i].href;
    }
  }

  /** The HREFs a poll treats as present: what it read and what it could not read. */
  function Known(listed: seq<Listed>, answers: seq<Answer>): set<Id>
    requires |listed| == |answers|
  {
    var stop := FirstFailure(answers);
    (set v | v in FoundIn(listed[..stop], answers[..stop]) :: v.href) + (set h | h in Hrefs(listed[stop..]))
  }

  /** The listing names the HREF, and that vApp was read, or the reading had ended by then. */
  predicate Present(listed: seq<Listed>, answers: seq<Answer>, href: Id)
    requires |listed| == |answers|
  {
    exists i :: 0 <= i < |listed| && listed[i].href == href &&
      (answers[i] == Found || exists j :: 0 <= j <= i && answers[j] == OtherFailure)
  }

  /** What a poll knows is what was read and what was left unread, and nothing else. */
  lemma KnownIsPresent(listed: seq<Listed>, answers: seq<Answer>, href: Id)
    requires |listed| == |answers|
    ensures href in Known(listed, answers) <==> Present(listed, answers, href)
  {
    var stop := FirstFailure(answers);
    if href in Known(listed, answers) {
      KnownWasListed(listed, answers, href);
    }
    if Present(listed, answers, href) {
      var i :| 0 <= i < |listed| && listed[i].href == href &&
        (answers[i] == Found || exists j :: 0 <= j <= i && answers[j] == OtherFailure);
      if i < stop {
        FoundInHolds(listed[..stop], answers[..stop], listed[i]);
        assert listed[..stop][i] == listed[i] && answers[..stop][i] == Found;
      } else {
        assert Hrefs(listed[stop..])[i - stop] == listed[i].href;
      }
    }
  }

  /** Something is known exactly when a vApp was read or a read failed. */
  lemma KnownIsSomething(listed: seq<Listed>, answers: seq<Answer>)
    requires |listed| == |answers|
    ensures Known(listed, answers) != {} <==> exists i :: 0 <= i < |answers| && (answers[i] == Found || answers[i] == OtherFailure)
  {
    if href :| href in Known(listed, answers) {
      KnownWasListed(listed, answers, href);
    }
    if i :| 0 <= i < |answers| && (answers[i] == Found || answers[i] == OtherFailure) {
      KnownIsPresent(listed, answers, listed[i].href);
    }
  }

  lemma KnownWasListed(listed: seq<Listed>, answers: seq<Answer>, href: Id)
    requires |listed| == |answers| && href in Known(listed, answers)
    ensures Present(listed, answers, href)
  {
    var stop := FirstFailure(answers);
    if v :| v in FoundIn(listed[..stop], answers[..stop]) && v.href == href {
      FoundInHolds(listed[..stop], answers[..stop], v);
      var i :| 0 <= i < stop && listed[..stop][i] == v && answers[..stop][i] == Found;
      assert listed[i].href == href && answers[i] == Found;
    } else {
      var i :| 0 <= i < |listed| - stop && Hrefs(listed[stop..])[i] == href;
      assert listed[stop + i].href == href && answers[stop] == OtherFailure;
    }
  }

  /** A listed vApp is presumed present unless a read of it said that it is gone, or an error text was taken for that. */
  lemma KnownUnlessGone(listed: seq<Listed>, answers: seq<Answer>, i: nat)
    requires |listed| == |answers| && i < |listed|
    requires FateOf(answers, i) != Gone && FateOf(answers, i) != Misjudged
    ensures listed[i].href in Known(listed, answers)
  {
    var stop := FirstFailure(answers);
    if i < stop {
      FoundInHolds(listed[..stop], answers[..stop], listed[i]);
      assert listed[..stop][i] == listed[i] && answers[..stop][i] == Found;
    } else {
      assert Hrefs(listed[stop..])[i - stop] == listed[i].href;
    }
  }
}
