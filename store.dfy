// The engine's persistent state: the rows of its own database (users,
// calendars, event links, error logs), the schema of the user's Notion
// database, and the writes sent to the two remote services so far.
module Tables {
  import opened Wrappers
  import opened Entities
  import opened Requests
  import Seqs

  /** `repository.save(link)`: the row with the same id is replaced, otherwise the link is appended. */
  function SaveLink(links: seq<Link>, l: Link): (r: seq<Link>)
    ensures l in r
    ensures forall x :: x in r ==> x == l || (x in links && x.id != l.id)
    ensures forall x :: x in links && x.id != l.id ==> x in r
    ensures (forall x :: x in links ==> x.id != l.id) ==> r == links + [l]
  {
    if |links| == 0 then [l]
    else if links[0].id == l.id then [l] + RemoveId(links[1..], l.id)
    else [links[0]] + SaveLink(links[1..], l)
  }

  function RemoveId(links: seq<Link>, id: int): (r: seq<Link>)
    ensures forall x :: x in r <==> x in links && x.id != id
  {
    Seqs.Filter(links, (x: Link) => x.id != id)
  }

  /** `repository.delete({id, userId})`: every row matching both columns goes. */
  function DeleteLinks(links: seq<Link>, id: int, userId: int): (r: seq<Link>)
    ensures forall x :: x in r <==> x in links && !(x.id == id && x.userId == userId)
    ensures |r| <= |links|
  {
    Seqs.Filter(links, (x: Link) => !(x.id == id && x.userId == userId))
  }

  /** Saving several rows, one after the other. */
  function SaveAll(links: seq<Link>, saved: seq<Link>): seq<Link>
    decreases |saved|
  {
    if |saved| == 0 then links else SaveAll(SaveLink(links, saved[0]), saved[1..])
  }

  /** `repository.update(id, changes)` on a map of rows: no row, no change. */
  function UpdateRow<T>(rows: map<int, T>, id: int, f: T -> T): (r: map<int, T>)
    ensures r.Keys == rows.Keys
    ensures id in rows ==> r[id] == f(rows[id])
    ensures forall k :: k in rows && k != id ==> r[k] == rows[k]
  {
    if id in rows then rows[id := f(rows[id])] else rows
  }
}

module Stores {
  import opened Wrappers
  import opened Entities
  import opened Requests

  /** The database tables and the remote services, as one mutable store. */
  class Store {
    var users: map<int, User>
    var calendars: map<int, Calendar>
    var links: seq<Link>
    var nextLinkId: int
    var errorLogs: seq<ErrorLog>
    var database: seq<DatabaseProperty>
    var notionRequests: seq<NotionRequest>
    var googleRequests: seq<GoogleRequest>
    const remote: Remote

    constructor(users: map<int, User>, calendars: map<int, Calendar>, links: seq<Link>, nextLinkId: int,
                errorLogs: seq<ErrorLog>, database: seq<DatabaseProperty>, remote: Remote)
      ensures this.users == users && this.calendars == calendars && this.links == links
      ensures this.nextLinkId == nextLinkId && this.errorLogs == errorLogs && this.database == database
      ensures this.remote == remote && notionRequests == [] && googleRequests == []
    {
      this.users := users;
      this.calendars := calendars;
      this.links := links;
      this.nextLinkId := nextLinkId;
      this.errorLogs := errorLogs;
      this.database := database;
      this.remote := remote;
      notionRequests := [];
      googleRequests := [];
    }
  }
}
