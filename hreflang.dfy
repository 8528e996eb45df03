/**
 The hreflang builder of the sitemap (`buildHreflangLinks`): for one canonical
 URL it fills a fresh object literal with one `?lang=<code>` link per language
 of the resolved settings and then writes the `x-default` link.

 The object is a string-keyed map. Two JavaScript details are kept:
 - a code that is `undefined` or `null` becomes the key "undefined" / "null",
   and the same text appears in the link;
 - assigning a string to the key "__proto__" of an object literal goes to the
   inherited prototype setter, which ignores primitive values, so no own key
   is created for it.
 */
module Hreflang {
  import opened JsValues

  /** One entry of the settings' `languages` array. */
  datatype Language = Language(code: JsString)

  /** The resolved settings the builder closes over. */
  datatype Settings = Settings(defaultLanguageCode: string, languages: seq<Language>)

  /** The `{ languages: links }` object returned by the builder. */
  datatype Alternates = Alternates(languages: map<string, string>)

  const XDefault := "x-default"
  const ProtoKey := "__proto__"

  /** The property key `links[lang.code]` writes. */
  function Key(lang: Language): string
  {
    ToText(lang.code)
  }

  /** `${url}?lang=${code}` */
  function LangUrl(url: string, code: string): string
  {
    url + "?lang=" + code
  }

  /** `links[k] = v` on an object literal whose value is a string. */
  function Assign(links: map<string, string>, k: string, v: string): map<string, string>
  {
    if k == ProtoKey then links else links[k := v]
  }

  /** The links after the `forEach` has visited `langs`, left to right. */
  function LinksFold(url: string, langs: seq<Language>): map<string, string>
    decreases |langs|
  {
    if langs == [] then map[]
    else
      var last := langs[|langs| - 1];
      Assign(LinksFold(url, langs[..|langs| - 1]), Key(last), LangUrl(url, Key(last)))
  }

  /** The builder's result: the fold over the languages, then `x-default` written last. */
  function HreflangLinks(url: string, s: Settings): Alternates
  {
    Alternates(Assign(LinksFold(url, s.languages), XDefault, LangUrl(url, s.defaultLanguageCode)))
  }

  ghost predicate HasCode(langs: seq<Language>, k: string)
  {
    exists i :: 0 <= i < |langs| && Key(langs[i]) == k
  }

  ghost predicate DistinctCodes(langs: seq<Language>)
  {
    forall i, j :: 0 <= i < j < |langs| ==> Key(langs[i]) != Key(langs[j])
  }

  /** The imperative builder: a loop filling `links`, then the `x-default` assignment. */
  method BuildHreflangLinks(url: string, s: Settings) returns (a: Alternates)
    ensures a == HreflangLinks(url, s)
  {
    var links: map<string, string> := map[];
    var i := 0;
    while i < |s.languages|
      invariant 0 <= i <= |s.languages|
      invariant links == LinksFold(url, s.languages[..i])
    {
      var code := Key(s.languages[i]);
      if code != ProtoKey {
        links := links[code := LangUrl(url, code)];
      }
      assert s.languages[..i + 1][..i] == s.languages[..i];
      i := i + 1;
    }
    assert s.languages[..i] == s.languages;
    links := links[XDefault := LangUrl(url, s.defaultLanguageCode)];
    a := Alternates(links);
  }

  /** Keys of the fold are exactly the visited codes other than "__proto__", and
      each key's link is built from that key, so repeated codes share one entry. */
  lemma {:induction false} LinksFoldContents(url: string, langs: seq<Language>)
    ensures forall k :: k in LinksFold(url, langs) <==> k != ProtoKey && HasCode(langs, k)
    ensures forall k :: k in LinksFold(url, langs) ==> LinksFold(url, langs)[k] == LangUrl(url, k)
    decreases |langs|
  {
    if langs != [] {
      var init := langs[..|langs| - 1];
      LinksFoldContents(url, init);
      forall k
        ensures HasCode(langs, k) <==> HasCode(init, k) || Key(langs[|langs| - 1]) == k
      {
        if HasCode(langs, k) {
          var i :| 0 <= i < |langs| && Key(langs[i]) == k;
          if i < |langs| - 1 {
            assert init[i] == langs[i];
          }
        }
        if HasCode(init, k) {
          var i :| 0 <= i < |init| && Key(init[i]) == k;
          assert langs[i] == init[i];
        }
      }
    }
  }

  /** Whatever the languages are (even one whose code is "x-default"), the
      `x-default` key carries the default-language link, every other key is one
      of the language codes linking to `url?lang=<code>`, and every code other
      than "__proto__" is a key. */
  lemma AlternatesContents(url: string, s: Settings)
    ensures var m := HreflangLinks(url, s).languages;
      && XDefault in m
      && m[XDefault] == LangUrl(url, s.defaultLanguageCode)
      && (forall k :: k in m <==> k == XDefault || (k != ProtoKey && HasCode(s.languages, k)))
      && (forall k :: k in m && k != XDefault ==> m[k] == LangUrl(url, k))
      && (forall i :: 0 <= i < |s.languages| && Key(s.languages[i]) != ProtoKey ==> Key(s.languages[i]) in m)
  {
    LinksFoldContents(url, s.languages);
    var m := HreflangLinks(url, s).languages;
    forall i | 0 <= i < |s.languages| && Key(s.languages[i]) != ProtoKey
      ensures Key(s.languages[i]) in m
    {
      assert HasCode(s.languages, Key(s.languages[i]));
    }
  }

  /** Visiting a language whose code was already visited leaves the links as they were. */
  lemma DuplicateCodeChangesNothing(url: string, langs: seq<Language>, lang: Language)
    requires HasCode(langs, Key(lang))
    ensures LinksFold(url, langs + [lang]) == LinksFold(url, langs)
  {
    assert (langs + [lang])[..|langs|] == langs;
    LinksFoldContents(url, langs);
    var m := LinksFold(url, langs);
    if Key(lang) != ProtoKey {
      assert Key(lang) in m;
      assert m[Key(lang) := LangUrl(url, Key(lang))] == m;
    }
  }

  /** With distinct codes, none of them "__proto__", the fold has one key per language. */
  lemma {:induction false} LinksFoldSize(url: string, langs: seq<Language>)
    requires DistinctCodes(langs)
    requires forall i :: 0 <= i < |langs| ==> Key(langs[i]) != ProtoKey
    ensures |LinksFold(url, langs)| == |langs|
    decreases |langs|
  {
    if langs != [] {
      var init := langs[..|langs| - 1];
      var last := langs[|langs| - 1];
      assert forall i :: 0 <= i < |init| ==> init[i] == langs[i];
      LinksFoldSize(url, init);
      LinksFoldContents(url, init);
    }
  }

  /** The fold never has more keys than there are languages. */
  lemma {:induction false} LinksFoldSizeBound(url: string, langs: seq<Language>)
    ensures |LinksFold(url, langs)| <= |langs|
    decreases |langs|
  {
    if langs != [] {
      LinksFoldSizeBound(url, langs[..|langs| - 1]);
    }
  }

  /** Distinct codes, none of them "x-default" or "__proto__": the map has
      `|languages| + 1` keys. In every case it has at most that many. */
  lemma AlternatesSize(url: string, s: Settings)
    ensures |HreflangLinks(url, s).languages| <= |s.languages| + 1
    ensures DistinctCodes(s.languages)
         && (forall i :: 0 <= i < |s.languages| ==> Key(s.languages[i]) != ProtoKey && Key(s.languages[i]) != XDefault)
         ==> |HreflangLinks(url, s).languages| == |s.languages| + 1
  {
    LinksFoldSizeBound(url, s.languages);
    if DistinctCodes(s.languages)
       && (forall i :: 0 <= i < |s.languages| ==> Key(s.languages[i]) != ProtoKey && Key(s.languages[i]) != XDefault)
    {
      LinksFoldSize(url, s.languages);
      LinksFoldContents(url, s.languages);
      assert XDefault !in LinksFold(url, s.languages);
    }
  }

  /** Default "en", languages en and fr, URL https://x.test. */
  lemma ExampleEnglishFrench()
    ensures HreflangLinks("https://x.test", Settings("en", [Language(Str("en")), Language(Str("fr"))])).languages
         == map["en" := "https://x.test?lang=en", "fr" := "https://x.test?lang=fr", "x-default" := "https://x.test?lang=en"]
  {
    var url, langs := "https://x.test", [Language(Str("en")), Language(Str("fr"))];
    assert langs[..1] == [Language(Str("en"))];
    assert langs[..1][..0] == [];
    assert LangUrl(url, "en") == "https://x.test?lang=en";
    assert LangUrl(url, "fr") == "https://x.test?lang=fr";
    assert LinksFold(url, langs[..1]) == map["en" := "https://x.test?lang=en"];
    assert LinksFold(url, langs) == map["en" := "https://x.test?lang=en", "fr" := "https://x.test?lang=fr"];
  }
}
