/**
 * Read-at-dispatch: the store id a request carries is the one selected when that
 * request passes the interceptor, not the one selected when its UI action began.
 * Stated twice: over a sequential trace of switches and sends, and with the
 * client and selection objects themselves.
 */
module RequestTrace {
  import opened Types
  import opened Http
  import opened StoreAtoms
  import opened StoreSwitcher
  import opened AxiosConfig

  /** One step of the event loop: a store switch, or a request passing the interceptor. */
  datatype Event = Switch(store: Store) | Send(req: Request, headers: Headers)

  /** The selected id after `events`, starting from `id`. */
  function IdAfter(id: int, events: seq<Event>): int {
    if events == [] then id
    else if events[|events| - 1].Switch? then events[|events| - 1].store.id
    else IdAfter(id, events[..|events| - 1])
  }

  /** The requests that leave the client during `events`, in order. */
  function Replay(id: int, events: seq<Event>): seq<Outbound> {
    if events == [] then []
    else
      var init, last := events[..|events| - 1], events[|events| - 1];
      Replay(id, init) + (if last.Send? then [Prepare(last.req, last.headers, IdAfter(id, init))] else [])
  }

  /** Later events never change requests already sent. */
  lemma {:induction false} ReplayExtends(id: int, events: seq<Event>, more: seq<Event>)
    ensures |Replay(id, events)| <= |Replay(id, events + more)|
    ensures Replay(id, events + more)[..|Replay(id, events)|] == Replay(id, events)
    decreases |more|
  {
    if more == [] {
      assert events + more == events;
    } else {
      var all := events + more;
      var init := events + more[..|more| - 1];
      assert all[..|all| - 1] == init;
      ReplayExtends(id, events, more[..|more| - 1]);
    }
  }

  /**
   * The request sent by `Send(req, headers)` after `pre` carries the id selected after `pre`,
   * whatever switches follow it.
   */
  lemma ReadAtDispatch(id: int, pre: seq<Event>, req: Request, headers: Headers, post: seq<Event>)
    ensures |Replay(id, pre)| < |Replay(id, pre + [Send(req, headers)] + post)|
    ensures Replay(id, pre + [Send(req, headers)] + post)[|Replay(id, pre)|] == Prepare(req, headers, IdAfter(id, pre))
  {
    var upto := pre + [Send(req, headers)];
    assert upto[..|upto| - 1] == pre;
    assert Replay(id, upto) == Replay(id, pre) + [Prepare(req, headers, IdAfter(id, pre))];
    ReplayExtends(id, upto, post);
  }

  /**
   * With the objects themselves: a request issued before a switch from `a` to `b` carries
   * `a`'s id, one issued after carries `b`'s; a non-positive id adds no header.
   */
  method SwitchBetweenRequests(a: Store, b: Store, r1: Request, r2: Request) returns (first: Outbound, second: Outbound)
    ensures a.id > 0 ==> first.headers == map[StoreIdHeader := HeaderNumber(a.id)]
    ensures a.id <= 0 ==> first.headers == map[]
    ensures b.id > 0 ==> second.headers == map[StoreIdHeader := HeaderNumber(b.id)]
    ensures b.id <= 0 ==> second.headers == map[]
    ensures first.url == Url(r1.path) && second.url == Url(r2.path)
  {
    var cells := new StoreSelection();
    var client := new ApiClient(cells);
    HandleStoreChanges(cells, a);
    first := client.Dispatch(r1, map[]);
    HandleStoreChanges(cells, b);
    second := client.Dispatch(r2, map[]);
  }

  /** Before any store is chosen the id is 0, so requests go out without `X-Store-Id`. */
  method UnselectedRequest(req: Request, headers: Headers) returns (out: Outbound)
    ensures out.headers == headers
    ensures StoreIdHeader in headers <==> StoreIdHeader in out.headers
  {
    var cells := new StoreSelection();
    var client := new ApiClient(cells);
    out := client.Dispatch(req, headers);
  }
}
