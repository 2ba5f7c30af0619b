/** Where things are written: paths in the generated repository, keys in the blob
    store, and the URLs the endpoints hand back. */
module Layout {
  import opened Remote

  /** The store module of the generated site that holds the map configuration. */
  const ConfigPath: string := "src/lib/stores/config-map.js"

  /** The file of the generated repository that holds one language's strings. */
  function LanguagePath(lang: string): string {
    "static/languages/" + lang + ".json"
  }

  /** The source of `config-map.js`: a writable store initialised with the serialized
      map configuration. */
  function ConfigModule(mapConfigJson: string): string {
    "import { writable } from 'svelte/store';\nexport const mapConfig = writable(" + mapConfigJson + ");"
  }

  /** The blob key under which `saveTranslationsToBlob` stores a language. */
  function LanguageBlobKey(lang: string): string {
    "languages/" + lang + ".json"
  }

  /** The blob key under which save-translations stores a language of one reference. */
  function TranslationBlobKey(referenceId: string, lang: string): string {
    "translations/" + referenceId + "/" + lang + ".json"
  }

  /** The blob key of a reference's language-to-URL index. */
  function ReferenceKey(referenceId: string): string {
    "references/" + referenceId + ".json"
  }

  /** The web address of a repository of the authenticated user. */
  function RepoUrl(login: string, repo: string): string {
    "https://github.com/" + login + "/" + repo
  }

  /** Distinct languages never share a repository file or a blob key. */
  lemma LanguageLocationsInjective(a: string, b: string, referenceId: string)
    requires a != b
    ensures LanguagePath(a) != LanguagePath(b)
    ensures LanguageBlobKey(a) != LanguageBlobKey(b)
    ensures TranslationBlobKey(referenceId, a) != TranslationBlobKey(referenceId, b)
  {
    SuffixInjective("static/languages/", a, b);
    SuffixInjective("languages/", a, b);
    SuffixInjective("translations/" + referenceId + "/", a, b);
  }

  lemma SuffixInjective(prefix: string, a: string, b: string)
    requires a != b
    ensures prefix + a + ".json" != prefix + b + ".json"
  {
    var x, y := prefix + a + ".json", prefix + b + ".json";
    if |a| == |b| {
      assert x[|prefix|..|prefix| + |a|] == a;
      assert y[|prefix|..|prefix| + |b|] == b;
    } else {
      assert |x| != |y|;
    }
  }
}
