/**
 * A client of the store that replays one user's lifecycle from the method
 * contracts alone: login, first sync, cached read, save, remove, and a save of
 * a video the user does not have.
 */
module Scenarios {
  import opened Wrappers
  import opened Controllers

  method Lifecycle()
  {
    var store := new UserStore(Some(Channel(None, "", 0)), true);
    var login := Login("U1", "pic", "Una", Grant("g"));
    var loggedIn := store.CallbackHandler(None, Fetched(login));
    assert store.records["U1"].uploads == map[] && store.records["U1"].saved == [];

    // first sync: the stored channel has no id, the provider reports one channel
    var v1, v2 := Item("V1", "first"), Item("V2", "second");
    var list := ChannelList([Channel(Some("C1"), "P1", 2)], 1);
    var synced := store.GetChannel("U1", Fetched(list), Fetched([v1, v2]));
    assert [v1, v2][..1] == [v1];
    assert [v1][..0] == [];
    assert UploadsOf([v1]) == map["V1" := v1];
    assert UploadsOf([v1, v2]) == map["V1" := v1, "V2" := v2];
    assert store.records["U1"].uploads == map["V1" := v1, "V2" := v2];
    assert store.records["U1"].uploadListId == Some("P1");

    // second call: the snapshot is served from the store, the provider is not used
    var cached := store.GetChannel("U1", Threw("not called"), Threw("not called"));
    assert cached == Stored(Channel(Some("C1"), "P1", 2), map["V1" := v1, "V2" := v2], []);

    var saved := store.SaveToList("U1", "V1");
    assert store.records["U1"].saved == ["V1"];
    var removed := store.RemoveFromList("U1", "V1");
    assert Pull(["V1"], "V1") == [];
    assert store.records["U1"].saved == [];

    var missing := store.SaveToList("U1", "VX");
    assert missing == ListError && store.records["U1"].saved == [];
  }

  /** A provider answer with no channel items throws before the "no channel"
      test; only a non-empty answer reporting zero results gets that reply. */
  method NoChannelAnswers()
  {
    var store := new UserStore(Some(Channel(None, "", 0)), true);
    var loggedIn := store.CallbackHandler(None, Fetched(Login("U2", "", "", Grant(""))));
    var before := store.records;
    var empty := store.GetChannel("U2", Fetched(ChannelList([], 0)), Threw("not called"));
    assert empty == ChannelError && store.records == before;
    var zero := store.GetChannel("U2", Fetched(ChannelList([Channel(None, "P", 0)], 0)), Threw("not called"));
    assert zero == NoChannel(NO_CHANNEL_MSG) && store.records == before;
  }
}
