/** Loading extensions into the extension bank (internal/extension_repo/goja_plugin.go,
    external_anime_torrent_provider.go, external_manga_provider.go).

    Each loader dispatches on the extension's language, runs the JS loader, and writes one bank
    entry under the extension's ID only when that succeeds. The provider constructors are
    abstract: `ProviderConstructor` gives, for an extension and language, a provider, an error or
    a panic. A panic is caught by the deferred recovery at the top of each loader and becomes
    the returned error. The message `util.HandlePanicInModuleWithError` builds is not modelled:
    the model records the module name the helper is given and the panic message. */
module ExtensionRepo {
  import opened Host
  import opened GojaRuntime
  import opened GojaPlugin

  /** An anime torrent or manga provider built from a script: an opaque handle. */
  datatype Provider = Provider(handle: nat)

  datatype BankEntry =
    | PluginExtension(ext: Extension)
    | AnimeTorrentProviderExtension(ext: Extension, provider: Provider)
    | MangaProviderExtension(ext: Extension, provider: Provider)

  datatype Construct = Built(provider: Provider) | ConstructFailed(err: Error) | ConstructPanicked(msg: string)

  type ProviderConstructor = (Extension, Language) -> Construct

  /** How a JS loader finished: with an error or nil, or by panicking. */
  datatype LoadStatus = Finished(err: Option<Error>) | Unwinding(msg: string)

  const PluginLoaderName: string := "extension_repo/loadPluginExtension"
  const TorrentLoaderName: string := "extension_repo/loadExternalAnimeTorrentProviderExtension"
  const MangaLoaderName: string := "extension_repo/loadExternalMangaExtension"

  function UnsupportedLanguage(name: string): Error {
    Plain("unsupported language: " + name)
  }

  /** The deferred recovery: a panic becomes the loader's error, and an error the loader
      returned passes through unchanged. */
  function Recover(loader: string, status: LoadStatus): (r: Option<Error>)
    ensures r == None <==> status == Finished(None)
    ensures status.Finished? ==> r == status.err
    ensures status.Unwinding? ==> r == Some(Recovered(loader, status.msg))
  {
    match status
    case Finished(err) => err
    case Unwinding(msg) => Some(Recovered(loader, msg))
  }

  class Repository {
    /** The extension bank: loaded extensions by ID. */
    var bank: map<string, BankEntry>

    /** Every entry is filed under its own extension's ID. */
    ghost predicate Valid()
      reads this
    {
      forall id :: id in bank ==> bank[id].ext.id == id
    }

    constructor ()
      ensures Valid() && bank == map[]
    {
      bank := map[];
    }

    // -------------------------------------------------------------------------------------
    // Plugins
    // -------------------------------------------------------------------------------------

    method LoadPluginExtension(loader: Runtime, ext: Extension, transpile: Transpiler,
                               pluginPool: Result<Pool, Error>, eval: Evaluator)
      returns (err: Option<Error>)
      requires Valid()
      modifies this, loader
      ensures Valid()
      ensures ext.language.OtherLanguage? ==>
                err == Some(UnsupportedLanguage(ext.language.name)) &&
                bank == old(bank) && loader.globals == old(loader.globals)
      ensures !ext.language.OtherLanguage? ==>
                var (outcome, globals) :=
                  PluginOutcome(old(loader.globals), ext, ext.language, transpile, pluginPool, eval);
                && loader.globals == globals
                && (outcome.Loaded? ==> err == None && bank == old(bank)[ext.id := PluginExtension(ext)])
                && (outcome.LoadFailed? ==> err == Some(outcome.err) && bank == old(bank))
                && (outcome.LoadPanicked? ==> err == Some(Recovered(PluginLoaderName, outcome.msg)) && bank == old(bank))
    {
      var status: LoadStatus;
      match ext.language {
      case Javascript =>
        status := LoadPluginExtensionJS(loader, ext, Javascript, transpile, pluginPool, eval);
      case Typescript =>
        status := LoadPluginExtensionJS(loader, ext, Typescript, transpile, pluginPool, eval);
      case OtherLanguage(name) =>
        status := Finished(Some(UnsupportedLanguage(name)));
      }
      err := Recover(PluginLoaderName, status);
    }

    method LoadPluginExtensionJS(loader: Runtime, ext: Extension, language: Language, transpile: Transpiler,
                                 pluginPool: Result<Pool, Error>, eval: Evaluator)
      returns (status: LoadStatus)
      requires Valid()
      modifies this, loader
      ensures Valid()
      ensures var (outcome, globals) :=
                PluginOutcome(old(loader.globals), ext, language, transpile, pluginPool, eval);
              && loader.globals == globals
              && (outcome.Loaded? ==> status == Finished(None) && bank == old(bank)[ext.id := PluginExtension(ext)])
              && (outcome.LoadFailed? ==> status == Finished(Some(outcome.err)) && bank == old(bank))
              && (outcome.LoadPanicked? ==> status == Unwinding(outcome.msg) && bank == old(bank))
    {
      var r := NewGojaPlugin(loader, ext, language, transpile, pluginPool, eval);
      match r
      case LoadPanicked(msg) =>
        return Unwinding(msg);
      case LoadFailed(e) =>
        return Finished(Some(e));
      case Loaded(_) =>
        // Register only now that loading has succeeded.
        bank := bank[ext.id := PluginExtension(ext)];
        status := Finished(None);
    }

    // -------------------------------------------------------------------------------------
    // Anime torrent providers
    // -------------------------------------------------------------------------------------

    method LoadExternalAnimeTorrentProviderExtension(ext: Extension, newProvider: ProviderConstructor)
      returns (err: Option<Error>)
      requires Valid()
      modifies this
      ensures Valid()
      ensures ext.language.OtherLanguage? ==>
                err == Some(UnsupportedLanguage(ext.language.name)) && bank == old(bank)
      ensures !ext.language.OtherLanguage? ==>
                match newProvider(ext, ext.language)
                case Built(p) => err == None && bank == old(bank)[ext.id := AnimeTorrentProviderExtension(ext, p)]
                case ConstructFailed(e) => err == Some(e) && bank == old(bank)
                case ConstructPanicked(msg) => err == Some(Recovered(TorrentLoaderName, msg)) && bank == old(bank)
    {
      var status: LoadStatus;
      match ext.language {
      case Javascript =>
        status := LoadExternalAnimeTorrentProviderExtensionJS(ext, Javascript, newProvider);
      case Typescript =>
        status := LoadExternalAnimeTorrentProviderExtensionJS(ext, Typescript, newProvider);
      case OtherLanguage(name) =>
        status := Finished(Some(UnsupportedLanguage(name)));
      }
      err := Recover(TorrentLoaderName, status);
    }

    method LoadExternalAnimeTorrentProviderExtensionJS(ext: Extension, language: Language,
                                                       newProvider: ProviderConstructor)
      returns (status: LoadStatus)
      requires Valid()
      modifies this
      ensures Valid()
      ensures match newProvider(ext, language)
              case Built(p) => status == Finished(None) && bank == old(bank)[ext.id := AnimeTorrentProviderExtension(ext, p)]
              case ConstructFailed(e) => status == Finished(Some(e)) && bank == old(bank)
              case ConstructPanicked(msg) => status == Unwinding(msg) && bank == old(bank)
    {
      match newProvider(ext, language)
      case ConstructPanicked(msg) =>
        return Unwinding(msg);
      case ConstructFailed(e) =>
        return Finished(Some(e));
      case Built(provider) =>
        // Register only now that loading has succeeded.
        bank := bank[ext.id := AnimeTorrentProviderExtension(ext, provider)];
        status := Finished(None);
    }

    // -------------------------------------------------------------------------------------
    // Manga providers
    // -------------------------------------------------------------------------------------

    /** Unlike the other loaders this one has no default case: an unsupported language loads
        nothing and reports no error. */
    method LoadExternalMangaExtension(ext: Extension, newProvider: ProviderConstructor)
      returns (err: Option<Error>)
      requires Valid()
      modifies this
      ensures Valid()
      ensures ext.language.OtherLanguage? ==> err == None && bank == old(bank)
      ensures !ext.language.OtherLanguage? ==>
                match newProvider(ext, ext.language)
                case Built(p) => err == None && bank == old(bank)[ext.id := MangaProviderExtension(ext, p)]
                case ConstructFailed(e) => err == Some(e) && bank == old(bank)
                case ConstructPanicked(msg) => err == Some(Recovered(MangaLoaderName, msg)) && bank == old(bank)
    {
      var status := Finished(None);
      match ext.language {
      case Javascript =>
        status := LoadExternalMangaExtensionJS(ext, Javascript, newProvider);
      case Typescript =>
        status := LoadExternalMangaExtensionJS(ext, Typescript, newProvider);
      case OtherLanguage(_) =>
      }
      err := Recover(MangaLoaderName, status);
    }

    method LoadExternalMangaExtensionJS(ext: Extension, language: Language, newProvider: ProviderConstructor)
      returns (status: LoadStatus)
      requires Valid()
      modifies this
      ensures Valid()
      ensures match newProvider(ext, language)
              case Built(p) => status == Finished(None) && bank == old(bank)[ext.id := MangaProviderExtension(ext, p)]
              case ConstructFailed(e) => status == Finished(Some(e)) && bank == old(bank)
              case ConstructPanicked(msg) => status == Unwinding(msg) && bank == old(bank)
    {
      match newProvider(ext, language)
      case ConstructPanicked(msg) =>
        return Unwinding(msg);
      case ConstructFailed(e) =>
        return Finished(Some(e));
      case Built(provider) =>
        // Register only now that loading has succeeded.
        bank := bank[ext.id := MangaProviderExtension(ext, provider)];
        status := Finished(None);
    }
  }
}
