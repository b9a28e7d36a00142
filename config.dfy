/** Pairing the configured calendars with their webhooks (`parseCalendars`). */
module Config {
  import opened Wrappers
  import opened Strings

  /** A configured calendar: its name on the calendar server and the chat
      webhook its notifications go to. */
  datatype Calendar = Calendar(name: string, webhook: string)

  /** A `key|url` entry of the webhook list is a pair for `key` when it has
      exactly two `|` fields and the first is `key`. */
  predicate IsPairFor(entry: string, key: string)
  {
    var fields := Split(entry, '|');
    |fields| == 2 && fields[0] == key
  }

  /** The URL of the last webhook pair for `key`, or "" when there is none. */
  function WebhookFor(webhooks: seq<string>, key: string): (url: string)
  {
    if webhooks == [] then ""
    else
      var last := webhooks[|webhooks| - 1];
      if IsPairFor(last, key) then Split(last, '|')[1]
      else WebhookFor(webhooks[..|webhooks| - 1], key)
  }

  /** The calendar a `name|key` entry yields, if it is kept. */
  function EntryCalendar(entry: string, webhooks: seq<string>): (kept: Option<Calendar>)
  {
    var fields := Split(entry, '|');
    if |fields| != 2 then None
    else
      var url := WebhookFor(webhooks, fields[1]);
      if url == "" then None else Some(Calendar(fields[0], url))
  }

  /** The calendars that the entries yield, in entry order. */
  function CalendarsFrom(entries: seq<string>, webhooks: seq<string>): (calendars: seq<Calendar>)
  {
    if entries == [] then []
    else
      var last := EntryCalendar(entries[|entries| - 1], webhooks);
      CalendarsFrom(entries[..|entries| - 1], webhooks)
        + (if last.Some? then [last.value] else [])
  }

  /** With no pair for `key`, the webhook is empty. */
  lemma {:induction false} NoPairNoWebhook(webhooks: seq<string>, key: string)
    requires forall k :: 0 <= k < |webhooks| ==> !IsPairFor(webhooks[k], key)
    ensures WebhookFor(webhooks, key) == ""
  {
    if webhooks != [] {
      var init := webhooks[..|webhooks| - 1];
      assert forall k :: 0 <= k < |init| ==> init[k] == webhooks[k];
      NoPairNoWebhook(init, key);
    }
  }

  /** The last pair for `key` decides the webhook, whatever earlier pairs say;
      it may be "", in which case the calendar is dropped. */
  lemma {:induction false} LastPairWins(webhooks: seq<string>, key: string, j: nat)
    requires j < |webhooks| && IsPairFor(webhooks[j], key)
    requires forall k :: j < k < |webhooks| ==> !IsPairFor(webhooks[k], key)
    ensures WebhookFor(webhooks, key) == Split(webhooks[j], '|')[1]
  {
    if j < |webhooks| - 1 {
      var init := webhooks[..|webhooks| - 1];
      assert forall k :: 0 <= k < |init| ==> init[k] == webhooks[k];
      LastPairWins(init, key, j);
    }
  }

  /** Entry order is kept: the calendars of `a + b` are those of `a`
      followed by those of `b`. */
  lemma {:induction false} CalendarsFromAppend(a: seq<string>, b: seq<string>, webhooks: seq<string>)
    ensures CalendarsFrom(a + b, webhooks) == CalendarsFrom(a, webhooks) + CalendarsFrom(b, webhooks)
  {
    if b == [] {
      assert a + b == a;
    } else {
      var init := b[..|b| - 1];
      assert (a + b)[..|a + b| - 1] == a + init;
      CalendarsFromAppend(a, init, webhooks);
    }
  }

  /** There are at most as many calendars as entries, each with a non-empty
      webhook, and a calendar is in the output exactly when some entry yields it. */
  lemma {:induction false} CalendarsFromShape(entries: seq<string>, webhooks: seq<string>)
    ensures |CalendarsFrom(entries, webhooks)| <= |entries|
    ensures forall c :: c in CalendarsFrom(entries, webhooks) ==> c.webhook != ""
    ensures forall c :: (c in CalendarsFrom(entries, webhooks)
        <==> exists i :: 0 <= i < |entries| && EntryCalendar(entries[i], webhooks) == Some(c))
  {
    if entries != [] {
      var init := entries[..|entries| - 1];
      CalendarsFromShape(init, webhooks);
      assert forall i :: 0 <= i < |init| ==> init[i] == entries[i];
      forall c | exists i :: 0 <= i < |entries| && EntryCalendar(entries[i], webhooks) == Some(c)
        ensures c in CalendarsFrom(entries, webhooks)
      {
        var i :| 0 <= i < |entries| && EntryCalendar(entries[i], webhooks) == Some(c);
        if i < |init| {
          assert EntryCalendar(init[i], webhooks) == Some(c);
        }
      }
    }
  }

  /** The keep rule of `parseCalendars`: a calendar is in the result exactly
      when some entry splits on `|` into two fields, the webhook found for its
      key (the second field) is non-empty, and the calendar is named by the
      first field and carries that webhook. */
  lemma {:induction false} CalendarsFromMembers(entries: seq<string>, webhooks: seq<string>, c: Calendar)
    ensures c in CalendarsFrom(entries, webhooks) <==>
      exists i :: 0 <= i < |entries|
        && |Split(entries[i], '|')| == 2
        && WebhookFor(webhooks, Split(entries[i], '|')[1]) != ""
        && c == Calendar(Split(entries[i], '|')[0], WebhookFor(webhooks, Split(entries[i], '|')[1]))
  {
    CalendarsFromShape(entries, webhooks);
  }

  /** `name|key` splits into its two fields when neither holds a `|`. */
  lemma SplitPair(x: string, y: string, sep: char)
    requires sep !in x && sep !in y
    ensures Split(x + [sep] + y, sep) == [x, y]
  {
    SplitJoin([x, y], sep);
  }

  /** Two calendars `work|k1,home|k2` against the webhooks `k1|a,k2|b`
      yield both calendars in order; if the first entry's key is `k3`,
      which no webhook pairs, only `home` is kept. */
  lemma {:induction false} TwoCalendarsExample(work: string, home: string, k1: string, k2: string, k3: string, a: string, b: string)
    requires forall f :: f in [work, home, k1, k2, k3, a, b] ==> ',' !in f && '|' !in f
    requires k1 != k2 && k3 != k1 && k3 != k2 && a != "" && b != ""
    ensures CalendarsFrom([work + "|" + k1, home + "|" + k2], [k1 + "|" + a, k2 + "|" + b])
        == [Calendar(work, a), Calendar(home, b)]
    ensures CalendarsFrom([work + "|" + k3, home + "|" + k2], [k1 + "|" + a, k2 + "|" + b])
        == [Calendar(home, b)]
  {
    var webhooks := [k1 + "|" + a, k2 + "|" + b];
    SplitPair(k1, a, '|');
    SplitPair(k2, b, '|');
    SplitPair(work, k1, '|');
    SplitPair(work, k3, '|');
    SplitPair(home, k2, '|');
    LastPairWins(webhooks, k1, 0);
    LastPairWins(webhooks, k2, 1);
    NoPairNoWebhook(webhooks, k3);
    assert EntryCalendar(work + "|" + k1, webhooks) == Some(Calendar(work, a));
    assert EntryCalendar(home + "|" + k2, webhooks) == Some(Calendar(home, b));
    assert EntryCalendar(work + "|" + k3, webhooks) == None;
    assert [work + "|" + k1, home + "|" + k2][..1] == [work + "|" + k1];
    assert CalendarsFrom([work + "|" + k1], webhooks) == [Calendar(work, a)] by {
      assert [work + "|" + k1][..0] == [];
    }
    assert [work + "|" + k3, home + "|" + k2][..1] == [work + "|" + k3];
  }

  /** `parseCalendars`: splits both lists on ',', keeps each `name|key`
      entry whose key the webhook list pairs with a non-empty URL (the last
      such pair wins) and returns the calendars in entry order. */
  method ParseCalendars(calendarsEnv: string, webhooksEnv: string) returns (calendars: seq<Calendar>)
    ensures calendars == CalendarsFrom(Split(calendarsEnv, ','), Split(webhooksEnv, ','))
    ensures |calendars| <= |Split(calendarsEnv, ',')|
    ensures forall c :: c in calendars ==> c.webhook != "" && '|' !in c.name
  {
    var calendarsS := Split(calendarsEnv, ',');
    var webhooksS := Split(webhooksEnv, ',');
    calendars := [];
    for i := 0 to |calendarsS|
      invariant calendars == CalendarsFrom(calendarsS[..i], webhooksS)
      invariant forall c :: c in calendars ==> '|' !in c.name
    {
      assert calendarsS[..i + 1][..i] == calendarsS[..i];
      var calS := Split(calendarsS[i], '|');
      if |calS| != 2 {
        continue;
      }
      var webhook := "";
      for j := 0 to |webhooksS|
        invariant webhook == WebhookFor(webhooksS[..j], calS[1])
      {
        assert webhooksS[..j + 1][..j] == webhooksS[..j];
        var wS := Split(webhooksS[j], '|');
        if |wS| != 2 {
          continue;
        }
        if wS[0] == calS[1] {
          webhook := wS[1];
        }
      }
      assert webhooksS[..|webhooksS|] == webhooksS;
      if webhook == "" {
        continue;
      }
      calendars := calendars + [Calendar(calS[0], webhook)];
    }
    assert calendarsS[..|calendarsS|] == calendarsS;
    CalendarsFromShape(calendarsS, webhooksS);
  }
}
