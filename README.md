# Sitemap aggregator and settings cache

A Dafny model of the server-side sitemap of a multilingual classifieds site
(`app/sitemap.js`) and of the process-wide settings slot
(`utils/settingsCache.js`).

`sitemap()` reads the site settings (default language and language list) and
the first page of products, categories and blogs from the API, and returns an
ordered list of entries: the base URL, ten static routes, then one entry per
product, category and blog. Every entry is weekly, has a fixed priority per
section, and carries an hreflang map from each language code (plus
`x-default`) to the entry's URL with `?lang=<code>` appended.

The model replaces each of the four `fetch` calls by its outcome,
`Fetch<T> = Threw | NotOk | Ok(body)`, where `Threw` means that the request
rejected or its body was not JSON. The JSON bodies are datatypes whose fields
may be absent (`Option`, `JsString = Undefined | Null | Str`). After that the
aggregator is deterministic. So two runs on the same responses give the same
entries: `Sitemap` equals the function `SitemapOf` of its inputs.

Files:
- `jsvalues.dfy`: JavaScript value conventions. `${v}` and property keys turn
  `undefined`/`null` into the text "undefined"/"null". `v || "en"` keeps only
  a non-empty string.
- `hreflang.dfy`: `buildHreflangLinks`, as a loop method proved equal to a
  left fold over the language list, plus lemmas about that fold.
- `sitemap.dfy`: the settings step, the entry builders, the three content
  sections, the aggregator method and its specification function, and the
  lemmas about the output.
- `settings_cache.dfy`: the settings slot as a class with one `Option` field.

Behaviour kept from the code:
- A non-ok settings response does not abort generation. Only a throw reaches
  the `return []` (app/sitemap.js:14-22), and a non-ok response gives the
  defaults `"en"` and `[]`.
- `default_language` is replaced by `"en"` when it is missing, null or the
  empty string (`||`).
- In a content section, a `data.data` that is truthy but not an array makes
  `.map` throw. The `catch` then leaves that section empty. A missing
  `data.data` gives an empty section through `|| []`.
- An item slug that is missing reads as the text "undefined" in its URL, and a
  null slug as "null". A language code is treated the same way, both as a key
  and in the link.
- The builder assigns keys on a plain object literal. Writing a string to the
  key `__proto__` there calls the inherited prototype setter, which ignores
  strings, so a language whose code is `__proto__` gets no key.
  `x-default` is written after the loop. It therefore always carries the
  default-language link, even when some language's code is `x-default`.
- Duplicate codes collapse into one key. The link depends only on the key, so
  the later write stores the same value.

## Model

| member | source | states |
|---|---|---|
| `Hreflang.BuildHreflangLinks` | app/sitemap.js:37-45 | the loop that fills `links` and then writes `x-default` yields exactly the left fold over the languages followed by the `x-default` assignment |
| `Hreflang.LinksFoldContents` | app/sitemap.js:38-41 | after the `forEach`, a key is present iff it is some language's code and is not `__proto__`; each key maps to `url?lang=<key>` |
| `Hreflang.AlternatesContents` | app/sitemap.js:37-45 | the alternate map has `x-default` mapped to `url?lang=<default>`; its keys are exactly `x-default` plus the language codes other than `__proto__`; every key other than `x-default` maps to `url?lang=<key>`; every language's code other than `__proto__` is a key |
| `Hreflang.DuplicateCodeChangesNothing` | app/sitemap.js:39-41 | visiting a language whose code was already seen leaves the links unchanged |
| `Hreflang.LinksFoldSize` | app/sitemap.js:39-41 | with distinct codes, none `__proto__`, the loop produces one key per language |
| `Hreflang.LinksFoldSizeBound` | app/sitemap.js:39-41 | the loop never produces more keys than there are languages |
| `Hreflang.AlternatesSize` | app/sitemap.js:37-45 | the map has at most one key more than there are languages, and exactly that many when the codes are distinct and none is `x-default` or `__proto__` |
| `Hreflang.ExampleEnglishFrench` | app/sitemap.js:37-45 | default `en`, languages `en` and `fr`, URL `https://x.test`: the map is `{en, fr, x-default}` with the expected three links |
| `Sitemap.SectionFromResponse` | app/sitemap.js:68-91 | one content try-block: entries are the section's entries for the items of an ok response with an array under `data.data`, and empty after a throw, a non-ok status, a missing list or a non-array list |
| `Sitemap.Sitemap` | app/sitemap.js:1-152 | the aggregator with its reassigned locals returns exactly `SitemapOf` of the four responses and the base URL |
| `Sitemap.SettingsThrowIsFatal` | app/sitemap.js:8-22 | the output is empty iff the settings step threw, whatever the content sources returned; otherwise it has at least 11 entries |
| `Sitemap.SettingsDefaults` | app/sitemap.js:5-18 | a non-ok response or a missing `data` gives `"en"` and `[]`; otherwise the default language is `default_language` when it is a non-empty string and `"en"` otherwise, and the languages are `languages` when present and `[]` otherwise |
| `Sitemap.SectionItemsCases` | app/sitemap.js:75-77 | a section contributes items only when its response is ok and `data.data` is an array, and then it contributes all of them |
| `Sitemap.EntryTemplates` | app/sitemap.js:47-139 | URL templates `baseUrl`, `baseUrl/route`, `baseUrl/ad-details/slug`, `baseUrl/ads?category=slug`, `baseUrl/blogs/slug`; priorities 10, 9, 8, 7, 7 tenths; the timestamp is `Now` for base and static entries and the item's `updated_at` otherwise; the alternates are the hreflang map of the entry's own URL |
| `Sitemap.SitemapIsAssemble` | app/sitemap.js:145-151 | when the settings step did not throw, the output is the final spread over the resolved settings and the items each content source yielded |
| `Sitemap.AssembleLayout` | app/sitemap.js:145-151 | length is 11 plus the numbers of products, categories and blogs; the base entry first, then the ten routes in list order, then products, categories and blogs, each in source order |
| `Sitemap.AssembleUniform` | app/sitemap.js:47-139 | every output entry has a priority between 7 and 10 tenths, and carries the hreflang map of its own URL under the resolved settings |
| `Sitemap.AssembleWithoutSection` | app/sitemap.js:145-151 | giving one section no items yields the full output with exactly that section's entries cut out |
| `Sitemap.FailedSourceRemovesOnlyItsSection` | app/sitemap.js:67-151 | if one content source yields no items instead (it throws, answers non-ok, has no `data.data`, or has a non-array there whose `.map` throws), the output is the previous output with exactly that section's entries removed; the base, static and other sections are unchanged |
| `Sitemap.ExampleChair` | app/sitemap.js:78-87 | one product `chair-1` with no `updated_at` gives one entry at `https://x.test/ad-details/chair-1` whose timestamp is the absent value |
| `SettingsCache.Cache.constructor` | utils/settingsCache.js:2 | the slot starts out null |
| `SettingsCache.Cache.GetCachedSettings` | utils/settingsCache.js:4-9 | null on the server whatever is stored; the stored value on the client; the read changes nothing (no `modifies`) |
| `SettingsCache.Cache.SetCachedSettings` | utils/settingsCache.js:11-13 | the slot holds the new settings, whatever it held before |
| `SettingsCache.Cache.ClearSettingsCache` | utils/settingsCache.js:15-17 | the slot is null, whatever it held before, so clearing twice is clearing once |
| `SettingsCache.SetThenGet` | utils/settingsCache.js:4-13 | two writes then a client read: the read returns the second value, and the slot keeps it |
| `SettingsCache.ClearThenGet` | utils/settingsCache.js:4-17 | one or two clears then a client read: the read returns null |
| `SettingsCache.ServerNeverReads` | utils/settingsCache.js:4-13 | a write then a server read: the read returns null and the slot keeps the written value |

## Left out

- HTTP and environment: `fetch`, `res.json()`, the one-week `revalidate`
  caching option and the `process.env` reads. The responses are outcome
  inputs and the web base URL is a string parameter. An unset
  `NEXT_PUBLIC_WEB_URL` (which would read as "undefined") is not modelled.
- Logging: the `console.error` calls have no observable effect on the result.
- Timestamps: `new Date()` and `new Date(item?.updated_at)` are left opaque
  (`Now`, `FromUpdatedAt(raw)`), because they depend on the wall clock and on
  date parsing.
- Asynchrony: `async`/`await` ordering is not modelled. The steps run in the
  order the code awaits them.
- Priorities are integer tenths, not floating-point numbers.
- The change frequency is always `"weekly"`. `ChangeFrequency` has that one
  value only, so the type itself carries this fact and no lemma restates it.
- Key order of the hreflang object: the `links` object is a
  `map<string, string>`, so the model does not keep JavaScript's property
  order (integer-like keys first, then insertion order). In particular, a
  language coded `x-default` fixes that key's position, which is then not
  last. Nothing in the sitemap depends on this order.
- Settings values that are not objects are not modelled: a null entry in
  `languages`, or a truthy `languages` that is not an array. In the code these
  throw outside any `try` when the static entries are built, so `sitemap()`
  itself rejects.
- Values of other JavaScript types are not modelled: numeric codes, slugs or
  `default_language`. The model covers missing, null and string values.
- A null content item is the same as an item with missing `slug` and
  `updated_at`, which is how the model represents it.
- SettingsCache.Cache.SetCachedSettings: takes a settings value. Passing
  `null` to `setCachedSettings` has the same effect as `ClearSettingsCache`
  and is not a separate case.
- The window check happens at every read. It is the `isServer` argument of
  `GetCachedSettings` rather than ambient state.
- components/Filter/FilterTree.jsx is not part of this model. It is a React
  view component built on hooks, API calls and navigation.
- public/firebase-messaging-sw.js is not part of this model. It is
  service-worker glue around a CDN-loaded SDK.
