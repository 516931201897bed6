/** The machine is not safe by doing nothing: a run that meets no trouble publishes the manifest and reports it. */
module PublishingProgress {
  import opened Prelude
  import opened Publishing
  import opened PublishingSafety
  import opened PublishingTheorems
  import opened PublishingUnsettled

  /** The commit is served and its reply stored. */
  lemma Committed(c: Config, t: seq<Action>, w: World, v: nat) returns (t': seq<Action>, w': World)
    requires !c.legacy && Run(c, NEW_WORLD, t) == Some(w) && AboutToCommit(w, v)
    requires w.server.published == [] && w.journal.generation == 0 && CommitKey(0) !in w.server.operations
    ensures Run(c, NEW_WORLD, t') == Some(w')
    ensures w'.pc == Returned(0) && |w'.server.published| == 1
    ensures w'.disk.Some? && w'.disk.value.result == Some(0)
  {
    var t1, w1 := Sends(c, NEW_WORLD, t, w);
    var t2, w2 := Claims(c, NEW_WORLD, t1, w1, PostCommit(0, v));
    var t3, w3 := Works(c, NEW_WORLD, t2, w2, CommitKey(0));
    var t4, w4 := Receives(c, NEW_WORLD, t3, w3);
    t', w' := Saves(c, NEW_WORLD, t4, w4);
  }

  /** A first run whose requests are answered returns, having published exactly the manifest. */
  lemma UntroubledRunPublishes(c: Config) returns (actions: seq<Action>)
    requires Sound(c)
    ensures Run(c, NEW_WORLD, actions).Some?
    ensures
      var w := Run(c, NEW_WORLD, actions).value;
      && w.pc == Returned(0) && w.disk.Some? && w.disk.value.result == Some(0)
      && |w.server.published| == 1 && w.server.published[0].content == Manifest(c)
  {
    var t1, w1 := Starts(c, NEW_WORLD, [], NEW_WORLD);
    var t2, w2 := Saves(c, NEW_WORLD, t1, w1);
    var t3, w3 := Asks(c, NEW_WORLD, t2, w2);
    var t4, w4 := Asks(c, NEW_WORLD, t3, w3);
    var t5, w5, v := OpenAndFill(c, NEW_WORLD, t4, w4);
    var t6, w6 := Committed(c, t5, w5, v);
    actions := t6;
    PublishesAtMostOnce(c, actions);
  }
}
