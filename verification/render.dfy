/**
 Rendering a page into the response (cmd/web/render.go): look the page up
 in the template cache, execute it into a pooled buffer, and only then
 write the status header and the buffered bytes.

 The response writer is a record with a header flag, the status sent, the
 body bytes sent and the redirect location. A client connection can fail a
 write: `room` is how many more body bytes it takes (`None` for no limit).
 The buffer pool is modelled sequentially: its idle buffers, with whatever
 they held when they were returned, and counts of takes and returns. Writing
 a buffer to the response drains it, so after a full write it goes back
 empty, and after a short write it keeps the bytes that were not sent.
 */
module Rendering {
  import opened Optional
  import opened TemplateContext

  /**
   The status codes a handler may pass to `WriteHeader`: final codes that
   allow a body. net/http rejects codes outside 100-999, treats 1xx codes as
   informational, and refuses every body byte after 204 or 304; the model
   admits none of those, and every call in the handlers and `render` passes
   one of the codes below.
   */
  type StatusCode = c: int | 200 <= c <= 599 && c != 204 && c != 304 witness 200

  const StatusOK: StatusCode := 200
  const StatusSeeOther: StatusCode := 303
  const StatusBadRequest: StatusCode := 400
  const StatusUnprocessableEntity: StatusCode := 422
  const StatusInternalServerError: StatusCode := 500

  /** A parsed template in the cache; what it contains is not modelled. */
  datatype Template = Template(name: string)

  /** Executing a template: its full output, or the output it wrote before failing. */
  datatype Execution = Executed(out: string) | ExecFailed(partial: string)

  type Executor = (Template, TemplateData) -> Execution

  datatype Sink = Sink(
    headerWritten: bool,
    status: StatusCode,   // meaningful once headerWritten
    body: string,
    location: Option<string>,
    room: Option<nat>)

  /** A response writer nothing has been written to yet; its status is net/http's default. */
  function NewSink(room: Option<nat>): Sink {
    Sink(false, StatusOK, "", None, room)
  }

  /** No body byte is sent before a status header. */
  predicate HeaderBeforeBody(s: Sink) {
    s.body != "" ==> s.headerWritten
  }

  /** Sets the status, unless a header was already sent (a later call is ignored). */
  function WriteHeader(s: Sink, status: StatusCode): (s': Sink)
    ensures s'.headerWritten
    ensures s'.status == (if s.headerWritten then s.status else status)
    ensures s'.body == s.body && s'.location == s.location && s'.room == s.room
  {
    if s.headerWritten then s else s.(headerWritten := true, status := status)
  }

  /** How many of `n` bytes a connection with the given room delivers. */
  function Accepted(room: Option<nat>, n: nat): (k: nat)
    ensures k <= n
    ensures k == n <==> room.None? || n <= room.value
  {
    match room
    case None => n
    case Some(m) => if n <= m then n else m
  }

  datatype Written = Written(ok: bool, sink: Sink)

  /** A body write; writing before any header first sends status 200, as net/http does. */
  function Write(s: Sink, data: string): (w: Written)
    ensures w.sink.headerWritten
    ensures w.sink.status == (if s.headerWritten then s.status else StatusOK)
    ensures w.ok <==> Accepted(s.room, |data|) == |data|
    ensures w.sink.body == s.body + data[..Accepted(s.room, |data|)]
    ensures w.sink.location == s.location
    ensures !w.ok ==> w.sink.room == Some(0)
  {
    var s1 := WriteHeader(s, StatusOK);
    var k := Accepted(s1.room, |data|);
    var room' := match s1.room case None => None case Some(m) => Some(m - k);
    Written(k == |data|, s1.(body := s1.body + data[..k], room := room'))
  }

  datatype Pool = Pool(idle: seq<string>, gets: nat, puts: nat)

  datatype Taken = Taken(buf: string, pool: Pool)

  /** Takes the most recently returned buffer, or a new empty one when none is idle. */
  function Get(p: Pool): (t: Taken)
    ensures t.pool.gets == p.gets + 1 && t.pool.puts == p.puts
    ensures p.idle == [] ==> t.buf == "" && t.pool.idle == []
    ensures p.idle != [] ==> p.idle == t.pool.idle + [t.buf]
  {
    if p.idle == [] then Taken("", p.(gets := p.gets + 1))
    else Taken(p.idle[|p.idle| - 1], Pool(p.idle[..|p.idle| - 1], p.gets + 1, p.puts))
  }

  function Put(p: Pool, buf: string): (p': Pool)
    ensures p'.idle == p.idle + [buf] && p'.gets == p.gets && p'.puts == p.puts + 1
  {
    p.(idle := p.idle + [buf], puts := p.puts + 1)
  }

  /** Empties a buffer, whatever it held. */
  function Reset(buf: string): (b: string)
    ensures b == ""
  {
    ""
  }

  datatype RenderError = TemplateNotFound(page: string) | ExecuteFailed(page: string) | WriteFailed

  datatype Rendered = Rendered(err: Option<RenderError>, sink: Sink, pool: Pool)

  /** The full output of the page, when it exists and executes. */
  function Output(cache: map<string, Template>, exec: Executor, page: string, data: TemplateData): Option<string> {
    if page in cache && exec(cache[page], data).Executed? then Some(exec(cache[page], data).out) else None
  }

  function Render(cache: map<string, Template>, exec: Executor, s: Sink, p: Pool,
                  status: StatusCode, page: string, data: TemplateData): (r: Rendered)
    // one buffer taken and one returned, on every path; the other idle buffers are untouched
    ensures r.pool.gets == p.gets + 1 && r.pool.puts == p.puts + 1
    ensures |r.pool.idle| == (if p.idle == [] then 1 else |p.idle|)
    ensures p.idle != [] ==> r.pool.idle[..|p.idle| - 1] == p.idle[..|p.idle| - 1]
    // the buffer given back holds nothing, the failed execution's partial output,
    // or the part of the page the connection did not take
    ensures page !in cache ==> r.pool.idle[|r.pool.idle| - 1] == ""
    ensures page in cache && exec(cache[page], data).ExecFailed? ==>
              r.pool.idle[|r.pool.idle| - 1] == exec(cache[page], data).partial
    ensures Output(cache, exec, page, data).Some? ==>
              var out := Output(cache, exec, page, data).value;
              r.pool.idle[|r.pool.idle| - 1] == out[Accepted(s.room, |out|)..]
    ensures r.err.None? ==> r.pool.idle[|r.pool.idle| - 1] == ""
    // lookup and execution failures leave the response untouched
    ensures page !in cache ==> r.err == Some(TemplateNotFound(page)) && r.sink == s
    ensures page in cache && exec(cache[page], data).ExecFailed? ==>
              r.err == Some(ExecuteFailed(page)) && r.sink == s
    // after a full execution: the header (unless one was already sent), then exactly the output
    ensures Output(cache, exec, page, data).Some? ==>
              var out := Output(cache, exec, page, data).value;
              && r.sink.headerWritten
              && r.sink.status == (if s.headerWritten then s.status else status)
              && r.sink.body == s.body + out[..Accepted(s.room, |out|)]
              && r.sink.location == s.location
    ensures r.err.None? <==>
              Output(cache, exec, page, data).Some? && Accepted(s.room, |Output(cache, exec, page, data).value|) == |Output(cache, exec, page, data).value|
    ensures r.err == Some(WriteFailed) ==> r.sink.headerWritten && r.sink.room == Some(0)
    ensures HeaderBeforeBody(s) ==> HeaderBeforeBody(r.sink)
  {
    var taken := Get(p);
    var buf := Reset(taken.buf);
    if page !in cache then
      Rendered(Some(TemplateNotFound(page)), s, Put(taken.pool, buf))
    else
      match exec(cache[page], data)
      case ExecFailed(partial) =>
        Rendered(Some(ExecuteFailed(page)), s, Put(taken.pool, buf + partial))
      case Executed(out) =>
        var full := buf + out;
        var w := Write(WriteHeader(s, status), full);
        // writing the buffer out drains it: only what the connection refused stays in it
        Rendered(if w.ok then None else Some(WriteFailed), w.sink, Put(taken.pool, full[Accepted(s.room, |full|)..]))
  }

  /** Nothing reaches the response unless the page was found and executed in full. */
  lemma SinkTouchedOnlyAfterExecution(cache: map<string, Template>, exec: Executor, s: Sink, p: Pool,
                                      status: StatusCode, page: string, data: TemplateData)
    ensures Render(cache, exec, s, p, status, page, data).sink != s ==> Output(cache, exec, page, data).Some?
  {
  }

  /**
   The response does not depend on what the pooled buffers held, so
   rendering the same page twice, the second time with the buffer the first
   call returned, sends the same bytes.
   */
  lemma RenderIgnoresStaleBuffers(cache: map<string, Template>, exec: Executor, s: Sink, p1: Pool, p2: Pool,
                                  status: StatusCode, page: string, data: TemplateData)
    ensures Render(cache, exec, s, p1, status, page, data).sink == Render(cache, exec, s, p2, status, page, data).sink
    ensures Render(cache, exec, s, p1, status, page, data).err == Render(cache, exec, s, p2, status, page, data).err
  {
  }

  lemma RenderIsRepeatable(cache: map<string, Template>, exec: Executor, s: Sink, p: Pool,
                           status: StatusCode, page: string, data: TemplateData)
    ensures var first := Render(cache, exec, s, p, status, page, data);
            var second := Render(cache, exec, s, first.pool, status, page, data);
            second.sink == first.sink && second.err == first.err
  {
    RenderIgnoresStaleBuffers(cache, exec, s, p, Render(cache, exec, s, p, status, page, data).pool, status, page, data);
  }
}
