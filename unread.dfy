/**
 * The client's unread markers (SafeZone-Web/src/hooks/useUnread.js): one set of channel ids and
 * one set of DM usernames, each updated by copying the previous set and adding or deleting one
 * element.
 */
module Unread {

  datatype Unread = Unread(channels: set<string>, dms: set<string>)

  const Initial := Unread({}, {})

  /** `markChannelUnread(id)`. */
  function MarkChannelUnread(u: Unread, id: string): (r: Unread)
    ensures forall c :: c in r.channels <==> c in u.channels || c == id
    ensures r.dms == u.dms
  {
    u.(channels := u.channels + {id})
  }

  /** `markChannelRead(id)`. */
  function MarkChannelRead(u: Unread, id: string): (r: Unread)
    ensures forall c :: c in r.channels <==> c in u.channels && c != id
    ensures r.dms == u.dms
  {
    u.(channels := u.channels - {id})
  }

  /** `markDMUnread(username)`. */
  function MarkDmUnread(u: Unread, username: string): (r: Unread)
    ensures forall d :: d in r.dms <==> d in u.dms || d == username
    ensures r.channels == u.channels
  {
    u.(dms := u.dms + {username})
  }

  /** `markDMRead(username)`. */
  function MarkDmRead(u: Unread, username: string): (r: Unread)
    ensures forall d :: d in r.dms <==> d in u.dms && d != username
    ensures r.channels == u.channels
  {
    u.(dms := u.dms - {username})
  }

  /** Marking twice is marking once, for all four operations. */
  lemma MarksIdempotent(u: Unread, id: string)
    ensures MarkChannelUnread(MarkChannelUnread(u, id), id) == MarkChannelUnread(u, id)
    ensures MarkChannelRead(MarkChannelRead(u, id), id) == MarkChannelRead(u, id)
    ensures MarkDmUnread(MarkDmUnread(u, id), id) == MarkDmUnread(u, id)
    ensures MarkDmRead(MarkDmRead(u, id), id) == MarkDmRead(u, id)
  {
    assert MarkChannelUnread(MarkChannelUnread(u, id), id).channels == MarkChannelUnread(u, id).channels;
    assert MarkChannelRead(MarkChannelRead(u, id), id).channels == MarkChannelRead(u, id).channels;
    assert MarkDmUnread(MarkDmUnread(u, id), id).dms == MarkDmUnread(u, id).dms;
    assert MarkDmRead(MarkDmRead(u, id), id).dms == MarkDmRead(u, id).dms;
  }

  /** Reading a channel undoes marking it when it was not marked before; the last of the two wins. */
  lemma ReadAfterUnread(u: Unread, id: string)
    ensures id !in u.channels ==> MarkChannelRead(MarkChannelUnread(u, id), id) == u
    ensures id in MarkChannelUnread(MarkChannelRead(u, id), id).channels
    ensures id !in MarkChannelRead(MarkChannelUnread(u, id), id).channels
  {
    if id !in u.channels {
      assert MarkChannelRead(MarkChannelUnread(u, id), id).channels == u.channels;
    }
  }

  /** The channel and the DM markers are independent: their operations commute. */
  lemma ChannelAndDmCommute(u: Unread, id: string, username: string)
    ensures MarkDmUnread(MarkChannelUnread(u, id), username) == MarkChannelUnread(MarkDmUnread(u, username), id)
    ensures MarkDmRead(MarkChannelRead(u, id), username) == MarkChannelRead(MarkDmRead(u, username), id)
    ensures MarkDmUnread(MarkChannelRead(u, id), username) == MarkChannelRead(MarkDmUnread(u, username), id)
    ensures MarkDmRead(MarkChannelUnread(u, id), username) == MarkChannelUnread(MarkDmRead(u, username), id)
  {
  }
}
