/**
 Cached translations of issue descriptions, looked up for one issue by its hash and for a whole page of
 issues by inverting hashes to rows.
 */
module TranslationLookup {
  import opened Options

  /** The cache; (hash, language) is its primary key. */
  type Cache = map<(string, string), string>

  datatype CacheRow = CacheRow(hash: string, text: string)

  /** White space as Unicode has it. */
  predicate IsSpace(c: char) {
    c in {'\U{0009}', '\U{000A}', '\U{000B}', '\U{000C}', '\U{000D}', ' ', '\U{0085}', '\U{00A0}', '\U{1680}',
          '\U{2028}', '\U{2029}',
          '\U{202F}', '\U{205F}', '\U{3000}'}
    || '\U{2000}' <= c <= '\U{200A}'
  }

  predicate Blank(s: string) {
    forall i :: 0 <= i < |s| ==> IsSpace(s[i])
  }

  predicate Asks(description: Option<string>) {
    description.Some? && !Blank(description.value)
  }

  /** What a description's translation is: the cached text of its hash, unless that is empty. */
  function Translation(cache: Cache, hash: string -> string, lang: string,
                       description: Option<string>): Option<string>
  {
    if !Asks(description) then None
    else
      var key := (hash(description.value), lang);
      if key in cache && cache[key] != "" then Some(cache[key]) else None
  }

  /** GetTranslationCacheBatch: the cached rows of these hashes, each once, in no particular order. */
  method GetTranslationCacheBatch(cache: Cache, hashes: seq<string>, lang: string) returns (rows: seq<CacheRow>)
    ensures forall r :: r in rows <==> r.hash in hashes && (r.hash, lang) in cache && cache[(r.hash, lang)] == r.text
    ensures forall i, j :: 0 <= i < j < |rows| ==> rows[i].hash != rows[j].hash
  {
    rows := [];
    for k := 0 to |hashes|
      invariant forall r ::
                  r in rows <==> r.hash in hashes[..k] && (r.hash, lang) in cache && cache[(r.hash, lang)] == r.text
      invariant forall i, j :: 0 <= i < j < |rows| ==> rows[i].hash != rows[j].hash
    {
      var h := hashes[k];
      if h !in hashes[..k] && (h, lang) in cache {
        assert forall i :: 0 <= i < |rows| ==> rows[i] in rows;
        rows := rows + [CacheRow(h, cache[(h, lang)])];
      }
      assert hashes[..k + 1] == hashes[..k] + [h];
    }
    assert hashes[..|hashes|] == hashes;
  }

  /** The look-up of one issue's detail. */
  method LookUp(cache: Cache, hash: string -> string, lang: string, description: Option<string>)
    returns (t: Option<string>)
    ensures t == Translation(cache, hash, lang, description)
  {
    t := None;
    if description.Some? && !Blank(description.value) {
      var h := hash(description.value);
      var rows := GetTranslationCacheBatch(cache, [h], lang);
      assert (h, lang) in cache ==> CacheRow(h, cache[(h, lang)]) in rows;
      assert |rows| > 0 ==> rows[0] in rows;
      if |rows| > 0 && rows[0].text != "" {
        t := Some(rows[0].text);
      }
    }
  }

  predicate HasHash(rows: seq<Option<string>>, hash: string -> string, k: nat, h: string) {
    k < |rows| && Asks(rows[k]) && hash(rows[k].value) == h
  }

  /** Under each hash, those of the first n rows that have it. */
  ghost predicate Indexes(rows: seq<Option<string>>, hash: string -> string, n: nat, index: map<string, seq<nat>>) {
    && (forall h, k: nat :: Listed(index, h, k) ==> k < n && HasHash(rows, hash, k, h))
    && (forall h, k: nat :: k < n && HasHash(rows, hash, k, h) ==> Listed(index, h, k))
  }

  predicate Listed(index: map<string, seq<nat>>, h: string, k: nat) {
    h in index && k in index[h]
  }

  /** The hashes asked for, each once, with the rows of each. */
  method IndexRows(rows: seq<Option<string>>, hash: string -> string)
    returns (index: map<string, seq<nat>>, hashes: seq<string>)
    ensures Indexes(rows, hash, |rows|, index)
    ensures forall h :: h in hashes <==> h in index
    ensures forall i, j :: 0 <= i < j < |hashes| ==> hashes[i] != hashes[j]
  {
    index, hashes := map[], [];
    for i := 0 to |rows|
      invariant Indexes(rows, hash, i, index)
      invariant forall h :: h in hashes <==> h in index
      invariant forall i, j :: 0 <= i < j < |hashes| ==> hashes[i] != hashes[j]
    {
      if rows[i].Some? && !Blank(rows[i].value) {
        var h := hash(rows[i].value);
        if h !in index {
          assert forall j :: 0 <= j < |hashes| ==> hashes[j] in hashes;
          hashes := hashes + [h];
        }
        IndexedRow(rows, hash, i, index);
        index := index[h := (if h in index then index[h] else []) + [i]];
      } else {
        SkippedRow(rows, hash, i, index);
      }
    }
  }

  lemma SkippedRow(rows: seq<Option<string>>, hash: string -> string, n: nat, index: map<string, seq<nat>>)
    requires n < |rows| && Indexes(rows, hash, n, index) && !Asks(rows[n])
    ensures Indexes(rows, hash, n + 1, index)
  {
  }

  lemma IndexedRow(rows: seq<Option<string>>, hash: string -> string, n: nat, index: map<string, seq<nat>>)
    requires n < |rows| && Indexes(rows, hash, n, index) && Asks(rows[n])
    ensures var h := hash(rows[n].value);
            Indexes(rows, hash, n + 1, index[h := (if h in index then index[h] else []) + [n]])
  {
    var h := hash(rows[n].value);
    var list := (if h in index then index[h] else []) + [n];
    var longer := index[h := list];
    assert list[|list| - 1] == n && n in list;
    forall g, k: nat ensures Listed(longer, g, k) <==> Listed(index, g, k) || (g == h && k == n) {
      assert k in list <==> k == n || (h in index && k in index[h]);
    }
    assert forall g :: HasHash(rows, hash, n, g) <==> g == h;
  }

  /** Rows given a translation so far: those of the first n cached rows. */
  ghost predicate Filled(index: map<string, seq<nat>>, cached: seq<CacheRow>, n: nat, translations: map<nat, string>)
    requires n <= |cached|
  {
    && (forall k :: k in translations ==>
          exists c :: 0 <= c < n && Fills(index, cached[c], k) && translations[k] == cached[c].text)
    && (forall c, k :: 0 <= c < n && Fills(index, cached[c], k) ==> k in translations)
  }

  predicate Fills(index: map<string, seq<nat>>, row: CacheRow, k: nat) {
    row.text != "" && Listed(index, row.hash, k)
  }

  /** The batch gives every row exactly what the look-up of that row alone gives. */
  method LoadTranslationsForRows(cache: Cache, hash: string -> string, lang: string, rows: seq<Option<string>>)
    returns (translations: map<nat, string>)
    ensures forall k :: k in translations ==> k < |rows|
    ensures forall k :: 0 <= k < |rows| ==>
              Translation(cache, hash, lang, rows[k]) == if k in translations then Some(translations[k]) else None
  {
    var index, hashes := IndexRows(rows, hash);
    translations := map[];
    var cached := GetTranslationCacheBatch(cache, hashes, lang);
    for c := 0 to |cached|
      invariant Filled(index, cached, c, translations)
    {
      if cached[c].text != "" && cached[c].hash in index {
        var filled := FillRows(index[cached[c].hash], cached[c].text, translations);
        OneMoreFilled(index, cached, c, translations, filled);
        translations := filled;
      } else {
        NothingFilled(index, cached, c, translations);
      }
    }
    FilledIsTranslation(cache, hash, lang, rows, index, cached, translations);
  }

  /** The inner loop: the rows of one cached hash. */
  method FillRows(list: seq<nat>, text: string, before: map<nat, string>) returns (after: map<nat, string>)
    ensures forall k :: k in after <==> k in before || k in list
    ensures forall k :: k in after ==> after[k] == if k in list then text else before[k]
  {
    after := before;
    for i := 0 to |list|
      invariant forall k :: k in after <==> k in before || k in list[..i]
      invariant forall k :: k in after ==> after[k] == if k in list[..i] then text else before[k]
    {
      after := after[list[i] := text];
      assert list[..i + 1] == list[..i] + [list[i]];
    }
    assert list[..|list|] == list;
  }

  lemma OneMoreFilled(index: map<string, seq<nat>>, cached: seq<CacheRow>, c: nat, before: map<nat, string>,
                      after: map<nat, string>)
    requires c < |cached| && Filled(index, cached, c, before) && cached[c].text != "" && cached[c].hash in index
    requires forall k :: k in after <==> k in before || k in index[cached[c].hash]
    requires forall k :: k in after ==> after[k] == if k in index[cached[c].hash] then cached[c].text else before[k]
    ensures Filled(index, cached, c + 1, after)
  {
    forall k | k in after
      ensures exists d :: 0 <= d < c + 1 && Fills(index, cached[d], k) && after[k] == cached[d].text
    {
      if k in index[cached[c].hash] {
        assert Fills(index, cached[c], k);
      } else {
        var d :| 0 <= d < c && Fills(index, cached[d], k) && before[k] == cached[d].text;
      }
    }
  }

  lemma NothingFilled(index: map<string, seq<nat>>, cached: seq<CacheRow>, c: nat, translations: map<nat, string>)
    requires c < |cached| && Filled(index, cached, c, translations)
             && (cached[c].text == "" || cached[c].hash !in index)
    ensures Filled(index, cached, c + 1, translations)
  {
  }

  lemma FilledIsTranslation(cache: Cache, hash: string -> string, lang: string, rows: seq<Option<string>>,
                            index: map<string, seq<nat>>, cached: seq<CacheRow>, translations: map<nat, string>)
    requires Indexes(rows, hash, |rows|, index) && Filled(index, cached, |cached|, translations)
    requires forall r :: r in cached <==> r.hash in index && (r.hash, lang) in cache && cache[(r.hash, lang)] == r.text
    ensures forall k :: k in translations ==> k < |rows|
    ensures forall k :: 0 <= k < |rows| ==>
              Translation(cache, hash, lang, rows[k]) == if k in translations then Some(translations[k]) else None
  {
    forall k | k in translations
      ensures k < |rows| && Translation(cache, hash, lang, rows[k]) == Some(translations[k])
    {
      var c :| 0 <= c < |cached| && Fills(index, cached[c], k) && translations[k] == cached[c].text;
      assert cached[c] in cached && HasHash(rows, hash, k, cached[c].hash);
    }
    forall k | 0 <= k < |rows| && Translation(cache, hash, lang, rows[k]).Some? ensures k in translations {
      var h := hash(rows[k].value);
      assert HasHash(rows, hash, k, h);
      assert CacheRow(h, cache[(h, lang)]) in cached;
      var c :| 0 <= c < |cached| && cached[c] == CacheRow(h, cache[(h, lang)]);
      assert Fills(index, cached[c], k);
    }
  }
}
