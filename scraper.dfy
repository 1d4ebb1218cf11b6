/**
 * The `MacRumors` object of app.py: the five deques it keeps between the
 * bot's two commands, the cache file it reads, and the `get_*` extractors,
 * each of which pushes what it finds onto its deque before returning it.
 */
module Scraper {
  import opened Wrappers
  import opened Pipeline

  class MacRumors {
    var url: seq<string>          // current_post_url
    var title: seq<string>        // current_post_title
    var description: seq<string>  // current_post_description
    var cover: seq<string>        // current_post_cover
    var text: seq<string>         // current_post_text
    var cache: seq<string>        // the lines of the cache file macrumors.txt

    function Snapshot(): State
      reads this
    {
      State(url, title, description, cover, text, cache)
    }

    /** `MacRumors(sitemap)`: five empty deques; the cache file holds `cacheLines`. */
    constructor (cacheLines: seq<string>)
      ensures Snapshot() == Empty.(cache := cacheLines)
    {
      url, title, description, cover, text := [], [], [], [], [];
      cache := cacheLines;
    }

    /** `get_title`: the `og:title` content, pushed onto `current_post_title`; raises when the tag is missing. */
    method GetTitle(page: Page) returns (v: Option<string>)
      modifies this
      ensures v == page.title
      ensures Snapshot() == old(Snapshot()).(title := old(title) + if v.Some? then [v.value] else [])
    {
      v := page.title;
      if v.Some? {
        title := title + [v.value];
      }
    }

    /** `get_description`: the `og:description` content, pushed onto `current_post_description`. */
    method GetDescription(page: Page) returns (v: Option<string>)
      modifies this
      ensures v == page.description
      ensures Snapshot() == old(Snapshot()).(description := old(description) + if v.Some? then [v.value] else [])
    {
      v := page.description;
      if v.Some? {
        description := description + [v.value];
      }
    }

    /** `get_cover`: the `og:image` content, pushed onto `current_post_cover`. */
    method GetCover(page: Page) returns (v: Option<string>)
      modifies this
      ensures v == page.cover
      ensures Snapshot() == old(Snapshot()).(cover := old(cover) + if v.Some? then [v.value] else [])
    {
      v := page.cover;
      if v.Some? {
        cover := cover + [v.value];
      }
    }

    /** `get_text`: the text of the article's second-last child, pushed onto `current_post_text`. */
    method GetText(page: Page) returns (v: Option<string>)
      modifies this
      ensures v == page.text
      ensures Snapshot() == old(Snapshot()).(text := old(text) + if v.Some? then [v.value] else [])
    {
      v := page.text;
      if v.Some? {
        text := text + [v.value];
      }
    }
  }
}
