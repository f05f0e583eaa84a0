/**
 * The requests the queues hold.  A request reaches the queues either as a
 * `scrapy.http.Request` or as the plain dict a disk queue restores; its
 * `meta` is a dict that the slot resolution of `scrapy/pqueues.py` may
 * write into, so a request is an object whose `meta` can change.
 */
module Requests {
  import opened Wrappers
  import opened PyText

  /** A `dict`, a `scrapy.http.Request`, or an object of any other class, given by its class name. */
  datatype RequestKind = DictRequest | ScrapyRequest | OtherObject(className: string)

  /** The exceptions the queues raise. */
  datatype Error = ValueError(message: string)

  class Request {
    const kind: RequestKind
    /** The `url` key or attribute, `None` (Dafny's) when the request has none. */
    const url: Option<Value>
    /**
     * The `meta` key or attribute, `None` (Dafny's) when the request has
     * none.  For a `Request`, `None` stands for the `meta` dict it has not
     * yet created: reading `meta` creates an empty one.
     */
    var meta: Option<map<string, Value>>

    constructor(kind: RequestKind, url: Option<Value>, meta: Option<map<string, Value>>)
      ensures this.kind == kind && this.url == url && this.meta == meta
    {
      this.kind := kind;
      this.url := url;
      this.meta := meta;
    }
  }
}
