// The provider's delivery callbacks: each event is acted on once, and the last word counts.
module StatusWebhook {
  import opened Models
  import opened Outbox
  import opened MessageKeys
  import opened Protocol

  // A post about a message, which may not be on file.
  datatype Post = Post(message: nat, sid: string, status: string, at: int)

  function EventId(sid: string, status: string): string {
    sid + ":" + status
  }

  function Event(p: Post): string {
    EventId(p.sid, p.status)
  }

  // Two posts are the same event exactly when the provider's id and its word agree; the id has no colon in it.
  lemma EventIdsEqualIff(sid: string, status: string, sid': string, status': string)
    requires ':' !in sid && ':' !in sid'
    ensures EventId(sid, status) == EventId(sid', status') <==> sid == sid' && status == status'
  {
    if EventId(sid, status) == EventId(sid', status') {
      FirstColonAfter(sid, status);
      FirstColonAfter(sid', status');
      assert EventId(sid, status)[..|sid|] == sid && EventId(sid, status)[|sid| + 1..] == status;
      assert EventId(sid', status')[..|sid'|] == sid' && EventId(sid', status')[|sid'| + 1..] == status';
    }
  }

  // ---- streams of posts ----

  // All messages, and the events on record for any of them.
  datatype Desk = Desk(rows: map<nat, Row>, events: set<string>)

  function Taken(d: Desk, p: Post): Desk {
    if p.message !in d.rows || Event(p) in d.events then d
    else Desk(d.rows[p.message := CalledBack(d.rows[p.message], p.status, p.at)], d.events + {Event(p)})
  }

  function TakenAll(d: Desk, posts: seq<Post>): Desk
    decreases |posts|
  {
    if posts == [] then d else TakenAll(Taken(d, posts[0]), posts[1..])
  }

  // The posts about messages on file that are the first of their event.
  function Fresh(onFile: set<nat>, events: set<string>, posts: seq<Post>): seq<Post>
    decreases |posts|
  {
    if posts == [] then []
    else if posts[0].message !in onFile || Event(posts[0]) in events then Fresh(onFile, events, posts[1..])
    else [posts[0]] + Fresh(onFile, events + {Event(posts[0])}, posts[1..])
  }

  function EventsOf(onFile: set<nat>, posts: seq<Post>): set<string> {
    if posts == [] then {}
    else (if posts[0].message in onFile then {Event(posts[0])} else {}) + EventsOf(onFile, posts[1..])
  }

  // The words about one message, in order.
  function About(message: nat, posts: seq<Post>): seq<Post> {
    if posts == [] then []
    else (if posts[0].message == message then [posts[0]] else []) + About(message, posts[1..])
  }

  function CalledBackAll(r: Row, posts: seq<Post>): Row
    decreases |posts|
  {
    if posts == [] then r else CalledBackAll(CalledBack(r, posts[0].status, posts[0].at), posts[1..])
  }

  lemma {:induction false} TakenAllRecords(d: Desk, posts: seq<Post>)
    ensures TakenAll(d, posts).rows.Keys == d.rows.Keys
    ensures TakenAll(d, posts).events == d.events + EventsOf(d.rows.Keys, posts)
    decreases |posts|
  {
    if posts != [] {
      assert Taken(d, posts[0]).rows.Keys == d.rows.Keys;
      TakenAllRecords(Taken(d, posts[0]), posts[1..]);
    }
  }

  // However often the provider repeats itself, every row ends as if each event had been posted once, at its first time.
  lemma {:induction false} RepeatsAreDropped(d: Desk, posts: seq<Post>, message: nat)
    requires message in d.rows
    ensures message in TakenAll(d, posts).rows
    ensures TakenAll(d, posts).rows[message]
            == CalledBackAll(d.rows[message], About(message, Fresh(d.rows.Keys, d.events, posts)))
    decreases |posts|
  {
    if posts != [] {
      var d' := Taken(d, posts[0]);
      assert d'.rows.Keys == d.rows.Keys;
      RepeatsAreDropped(d', posts[1..], message);
      var rest := Fresh(d.rows.Keys, d'.events, posts[1..]);
      assert ([posts[0]] + rest)[1..] == rest;
      assert ([posts[0]] + About(message, rest))[1..] == About(message, rest) == [] + About(message, rest);
    }
  }

  lemma {:induction false} KnownChangesNothing(d: Desk, posts: seq<Post>)
    requires EventsOf(d.rows.Keys, posts) <= d.events
    ensures TakenAll(d, posts) == d
  {
    if posts != [] {
      KnownChangesNothing(d, posts[1..]);
    }
  }

  // Delivering again events that were delivered before changes nothing, in whatever order they come.
  lemma RedeliveryIsHarmless(d: Desk, posts: seq<Post>, again: seq<Post>)
    requires EventsOf(d.rows.Keys, again) <= EventsOf(d.rows.Keys, posts)
    ensures TakenAll(TakenAll(d, posts), again) == TakenAll(d, posts)
  {
    TakenAllRecords(d, posts);
    KnownChangesNothing(TakenAll(d, posts), again);
  }

  // The last of the words that mean something here, or nothing.
  function LastMeaning(posts: seq<Post>): Option<MessageStatus> {
    if posts == [] then None else
    var later := LastMeaning(posts[1..]);
    if later.Some? then later else MeaningOf(Lower(posts[0].status))
  }

  lemma {:induction false} LastWordOfAll(r: Row, posts: seq<Post>)
    ensures CalledBackAll(r, posts).status
            == match LastMeaning(posts) case Some(status) => status case None => r.status
    decreases |posts|
  {
    if posts != [] {
      LastWordOfAll(CalledBack(r, posts[0].status, posts[0].at), posts[1..]);
    }
  }

  // A row ends with the last meaningful fresh word about it, whatever it said before: a "sent" that arrives after
  // "delivered" takes the delivery back.
  lemma LastWordWins(d: Desk, posts: seq<Post>, message: nat)
    requires message in d.rows
    ensures message in TakenAll(d, posts).rows
    ensures TakenAll(d, posts).rows[message].status
            == match LastMeaning(About(message, Fresh(d.rows.Keys, d.events, posts)))
               case Some(status) => status
               case None => d.rows[message].status
  {
    RepeatsAreDropped(d, posts, message);
    LastWordOfAll(d.rows[message], About(message, Fresh(d.rows.Keys, d.events, posts)));
  }

  // Taking a post about a message whose row no sender holds is the protocol's callback.
  lemma TakenIsCallback(c: Config, s: State, p: Post)
    requires Enabled(s, Callback(p.message, Event(p), p.status)) && p.at == s.now
    ensures var t := Next(c, s, Callback(p.message, Event(p), p.status));
            && Taken(Desk(s.rows, s.callbackEvents), p) == Desk(t.rows, t.callbackEvents)
            && t == s.(rows := t.rows, callbackEvents := t.callbackEvents)
  {}

  // The first post of an event, whatever the row said before: "delivered" ends Delivered, the three words for sent end
  // Sent, the three for failed end Failed, each with its instant, and any other word leaves the row alone. Every other
  // row stays, and the event is on record.
  lemma FirstPostEndsAs(d: Desk, p: Post)
    requires p.message in d.rows && Event(p) !in d.events
    ensures var d' := Taken(d, p);
            && p.message in d'.rows && EndsAsCalledBack(d.rows[p.message], d'.rows[p.message], p.status, p.at)
            && d'.rows.Keys == d.rows.Keys && d'.events == d.events + {Event(p)}
            && forall id :: id in d.rows && id != p.message ==> d'.rows[id] == d.rows[id]
  {
    CallbackEndsAs(d.rows[p.message], p.status, p.at);
  }

  // The same of the protocol, for a row that no sender holds.
  lemma FirstCallbackEndsAs(c: Config, s: State, id: nat, event: string, word: string)
    requires id in s.rows && Unlocked(s, id) && event !in s.callbackEvents
    ensures Enabled(s, Callback(id, event, word))
    ensures var t := Next(c, s, Callback(id, event, word));
            && id in t.rows && EndsAsCalledBack(s.rows[id], t.rows[id], word, s.now)
            && t == s.(rows := s.rows[id := t.rows[id]], callbackEvents := s.callbackEvents + {event})
  {
    CallbackEndsAs(s.rows[id], word, s.now);
  }

  // An event that is on record is not acted on again, until its record is purged; then it counts as a first post.
  lemma ForgottenCountsAgain(c: Config, s: State, events: set<string>, id: nat, event: string, word: string)
    requires id in s.rows && Unlocked(s, id) && event in s.callbackEvents
    ensures Enabled(s, ForgetCallbacks(events))
    ensures var u := Next(c, s, ForgetCallbacks(events));
            && u == s.(callbackEvents := u.callbackEvents) && Enabled(u, Callback(id, event, word))
            && var t := Next(c, u, Callback(id, event, word));
            if event in events then id in t.rows && EndsAsCalledBack(s.rows[id], t.rows[id], word, s.now)
            else t == u
  {
    var u := Next(c, s, ForgetCallbacks(events));
    assert Unlocked(u, id);
    if event in events {
      FirstCallbackEndsAs(c, u, id, event, word);
    }
  }

  // And of whole streams: a row whose last fresh word is "delivered" ends Delivered, and likewise for the other words.
  lemma LastWordDecides(d: Desk, posts: seq<Post>, message: nat, word: string)
    requires message in d.rows
    requires var told := About(message, Fresh(d.rows.Keys, d.events, posts));
             told != [] && word == Lower(told[|told| - 1].status)
    ensures message in TakenAll(d, posts).rows
    ensures var status := TakenAll(d, posts).rows[message].status;
            && (word == "delivered" ==> status == Delivered)
            && (word in {"sent", "queued", "accepted"} ==> status == Sent)
            && (word in {"failed", "undelivered", "rejected"} ==> status == Failed)
  {
    var told := About(message, Fresh(d.rows.Keys, d.events, posts));
    LastWordWins(d, posts, message);
    MeaningIs(word);
    if MeaningOf(word).Some? {
      LastOfTold(told);
    }
  }

  lemma {:induction false} LastOfTold(told: seq<Post>)
    requires told != [] && MeaningOf(Lower(told[|told| - 1].status)).Some?
    ensures LastMeaning(told) == MeaningOf(Lower(told[|told| - 1].status))
  {
    if |told| > 1 {
      LastOfTold(told[1..]);
    }
  }

  // ---- the webhook ----

  datatype Answer = Ignored | DuplicateIgnored | Processed

  function Messages(onFile: map<nat, OutboundMessage>): set<OutboundMessage> {
    set id | id in onFile :: onFile[id]
  }

  ghost predicate HaveTable(onFile: map<nat, OutboundMessage>, rows: map<nat, Row>)
    reads Messages(onFile)
  {
    rows.Keys == onFile.Keys && forall id :: id in onFile ==> HasRow(onFile[id], rows[id])
  }

  class CallbackLog {
    var events: set<string>

    constructor ()
      ensures events == {}
    {
      events := {};
    }

    // The database refuses an event it has on record before anything is written to the message.
    method StatusCallback(onFile: map<nat, OutboundMessage>, ghost rows: map<nat, Row>, p: Post)
        returns (answer: Answer)
      requires Injective(onFile) && HaveTable(onFile, rows)
      modifies this, Messages(onFile)
      ensures var after := Taken(Desk(rows, old(events)), p);
              && HaveTable(onFile, after.rows) && events == after.events
              && answer == if p.message !in onFile then Ignored
                           else if Event(p) in old(events) then DuplicateIgnored else Answer.Processed
    {
      if p.message !in onFile {
        return Ignored;
      }
      var event := EventId(p.sid, p.status);
      if event in events {
        return DuplicateIgnored;
      }
      events := events + {event};
      var message := onFile[p.message];
      assert HasRow(message, rows[p.message]);
      message.ProcessDeliveryCallback(p.status, p.at);
      return Answer.Processed;
    }
  }
}
