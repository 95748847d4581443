/**
 * The URL-shortening routes of the worker: `addUrl` (a conditional upsert on
 * the `URLS` namespace), the `POST /api/url` route that calls it with the
 * default `override = false`, and the slug lookup of the `GET /:slug` route.
 */
module Shorty {
  import opened Wrappers
  import opened Kv

  /** The persona prepended as the system message of every chat (after `stripIndents`). */
  const ShortySystemMessage: string :=
    "You are an assistant for the URL Shortening service named shrty.dev.\n\n"
    + "Each shortened link is called a shorty. Each shorty starts with the current hostname"
    + " and then is followed by a forward slash and then the slug.\n\n"
    + "You are jovial and want to encourage people to create great shortened links."

  /** The record `addUrl` returns; `message` is present only when an existing slug was kept. */
  datatype AddResult = AddResult(slug: string, url: string, shorty: string, message: Option<string>)

  /** The store after one `addUrl` call, together with what the call returned. */
  datatype Upsert = Upsert(store: map<string, string>, result: AddResult)

  /**
   * The explanation returned when a slug is kept. The template interpolates
   * `override`, which on this path is always the literal `false`: the branch is
   * taken only for a falsy override, and both modelled callers (src/index.ts:51,
   * src/before.ts:19-20) pass exactly `false` then.
   */
  function NotUpdatedMessage(slug: string, existing: string): (m: string)
    // it names the slug and then the existing target
    ensures "Did not update " + slug + " because it already was pointing to " + existing <= m
  {
    "Did not update " + slug + " because it already was pointing to " + existing
    + " and override was set to false."
  }

  /**
   * What `addUrl(slug, url, override)` does to the store and returns:
   * write when the slug is absent or `override` holds, otherwise keep the
   * existing target and explain why.
   */
  function UpsertUrl(store: map<string, string>, slug: string, url: string, override: bool): (u: Upsert)
    // every branch echoes the slug and its path
    ensures u.result.slug == slug && u.result.shorty == "/" + slug
    // the returned url is always the one the store now holds for the slug
    ensures slug in u.store && u.result.url == u.store[slug]
    // every other key keeps its presence and its value
    ensures forall k :: k != slug ==> (k in u.store <==> k in store)
    ensures forall k :: k != slug && k in store ==> u.store[k] == store[k]
    // absent slug: written, no message
    ensures slug !in store ==> u.store[slug] == url && u.result.message == None
    // present slug, no override: store untouched, existing target reported
    ensures slug in store && !override ==>
      u.store == store && u.result.message == Some(NotUpdatedMessage(slug, store[slug]))
    // present slug, override: overwritten, no message
    ensures slug in store && override ==> u.store[slug] == url && u.result.message == None
  {
    if slug in store && !override then
      Upsert(store, AddResult(slug, store[slug], "/" + slug, Some(NotUpdatedMessage(slug, store[slug]))))
    else
      Upsert(store[slug := url], AddResult(slug, url, "/" + slug, None))
  }

  /** Calling `addUrl(slug, url, false)` twice leaves the store as one call did. */
  lemma UpsertIdempotent(store: map<string, string>, slug: string, url: string)
    ensures var once := UpsertUrl(store, slug, url, false);
            var twice := UpsertUrl(once.store, slug, url, false);
            && twice.store == once.store
            && twice.result.url == once.store[slug]
            && twice.result.message.Some?
  {
  }

  /** `addUrl`: read the slug, then `put` unless it exists and `override` is off. */
  method AddUrl(urls: KvNamespace, slug: string, url: string, override: bool) returns (r: AddResult)
    modifies urls
    ensures Upsert(urls.entries, r) == UpsertUrl(old(urls.entries), slug, url, override)
  {
    var existing := urls.Get(slug);
    if existing.Some? {
      if !override {
        return AddResult(slug, existing.value, "/" + slug, Some(NotUpdatedMessage(slug, existing.value)));
      }
    }
    urls.Put(slug, url);
    r := AddResult(slug, url, "/" + slug, None);
  }

  /** `POST /api/url`: `addUrl` with the default `override = false`; never overwrites. */
  method PostApiUrl(urls: KvNamespace, slug: string, url: string) returns (r: AddResult)
    modifies urls
    ensures Upsert(urls.entries, r) == UpsertUrl(old(urls.entries), slug, url, false)
    ensures slug in old(urls.entries) ==>
      urls.entries == old(urls.entries) && r.url == old(urls.entries)[slug]
  {
    r := AddUrl(urls, slug, url, false);
  }

  /** The outcome of `GET /:slug` (click tracking aside). */
  datatype Response = NotFound | Redirect(location: string)

  /** `GET /:slug`: 404 for an unknown slug, otherwise a redirect to the stored URL. */
  method GetSlug(urls: KvNamespace, slug: string) returns (r: Response)
    ensures r.NotFound? <==> slug !in urls.entries
    ensures r.Redirect? ==> r.location == urls.entries[slug]
  {
    var url := urls.Get(slug);
    if url.None? {
      return NotFound;
    }
    r := Redirect(url.value);
  }
}
