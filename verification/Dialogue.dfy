/** What a client makes of the replies at every point where the session waits for a line. */
module Dialogue {
  import opened Bytes
  import opened Responses
  import opened Protocol
  import opened Replies
  import opened Texts
  import opened Discipline
  import opened Conservation

  lemma {:induction false} TurnsAreBalanced(cfg: Config, w: World, n: nat)
    requires Balanced(w) && Turns(cfg, w, n).status.Live?
    ensures Balanced(Turns(cfg, w, n).world)
  {
    hide Balanced;
    hide Step;
    if n == 0 {
    } else {
      TurnsAreBalanced(cfg, w, n - 1);
      StepKeepsBalance(cfg, Turns(cfg, w, n - 1).world);
    }
  }

  lemma {:induction false} TurnsAreFramed(cfg: Config, w: World, total: bytes, n: nat)
    requires Flowing(cfg, w, total)
    ensures Flowing(cfg, Turns(cfg, w, n).world, total)
  {
    hide Flowing;
    hide Step;
    if n == 0 {
    } else {
      TurnsAreFramed(cfg, w, total, n - 1);
      StepFlows(cfg, Turns(cfg, w, n - 1).world, total);
    }
  }

  /** The tally counts the final lines, and knows whether the last one is final. */
  lemma {:induction false} TallyIsOfReplies(log: seq<Event>)
    ensures
      var rs, t := SentIn(log), Count(log);
      t.replies == Finals(rs) && (t.pending <==> rs != [] && rs[|rs| - 1].hasNext)
  {
    if log == [] {
    } else {
      var before, e := log[..|log| - 1], log[|log| - 1];
      TallyIsOfReplies(before);
      if e.Sent? {
        assert SentIn(log)[..|SentIn(before)|] == SentIn(before);
      }
    }
  }

  lemma StartIsBalanced(cfg: Config, link: Link, input: bytes)
    ensures Balanced(Start(cfg, link, input))
  {
    CountSnoc([], Sent(Banner(cfg.serverName)));
  }

  /** Wherever the session waits for a line, a client that groups the lines on the wire by
      the continuation dash has one complete reply for the banner and one for each line it
      sent outside a body, and nothing is left over. A prompt may stand unanswered only at
      the end of the stream. */
  lemma OneReplyForEachLine(cfg: Config, link: Link, input: bytes, n: nat)
    requires PlainTexts(cfg) && Turns(cfg, Start(cfg, link, input), n).status.Live?
    ensures
      var w := Turns(cfg, Start(cfg, link, input), n).world;
      var lines, t := ReadLines(OnWire(SentIn(w.log))), Count(w.log);
      && lines == Lines(SentIn(w.log)) && Concat(Group(lines)) == lines
      && |Group(lines)| == 1 + t.owed + t.unanswered
      && (t.unanswered == 0 || (t.unanswered == 1 && w.input == []))
  {
    hide Turns;
    hide ReadLines;
    hide OnWire;
    hide Group;
    hide Count;
    hide AllBytes;
    hide PlainTexts;
    hide AllWellFormed;
    var start := Start(cfg, link, input);
    var w := Turns(cfg, start, n).world;
    StartFlows(cfg, link, input);
    TurnsAreFramed(cfg, start, input, n);
    StartIsBalanced(cfg, link, input);
    TurnsAreBalanced(cfg, start, n);
    TallyIsOfReplies(w.log);
    ReadsWhatWasPrinted(SentIn(w.log));
    GroupsAreReplies(SentIn(w.log));
  }
}
