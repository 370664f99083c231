/** The value types of the application: the two marketplaces (App.tsx, line 7),
    the per-marketplace records that every piece of session state is kept in
    (App.tsx, lines 11-26), and the generation result (types.ts). */
module Types {
  import opened Wrappers

  /** `type Platform = 'amazon' | 'trendyol'` */
  datatype Platform = Amazon | Trendyol

  /** The platform that is not `p`. */
  function Other(p: Platform): (q: Platform)
    ensures q != p
  {
    match p
    case Amazon => Trendyol
    case Trendyol => Amazon
  }

  /** Every platform is `p` or the other one. */
  lemma OnlyTwo(p: Platform, q: Platform)
    ensures q == p || q == Other(p)
  {
  }

  /** `{ [key in Platform]: T }`: one value for each platform. */
  datatype PerPlatform<T> = PerPlatform(amazon: T, trendyol: T) {

    /** `m[p]` */
    function Get(p: Platform): T {
      match p
      case Amazon => amazon
      case Trendyol => trendyol
    }

    /** `{ ...m, [p]: v }`: the entry of `p` reads `v`, the other entry is
        kept. */
    function Set(p: Platform, v: T): (r: PerPlatform<T>)
      ensures r.Get(p) == v
      ensures r.Get(Other(p)) == Get(Other(p))
    {
      match p
      case Amazon => this.(amazon := v)
      case Trendyol => this.(trendyol := v)
    }
  }

  /** The same value for both platforms, as every state hook is initialised. */
  function Both<T>(v: T): (r: PerPlatform<T>)
    ensures forall p :: r.Get(p) == v
  {
    PerPlatform(v, v)
  }

  /** `ModelPrompts` (types.ts, lines 26-32). */
  datatype ModelPrompts = ModelPrompts(
    lifestyle1: string,
    lifestyle2: string,
    usage: string,
    features: string,
    sizing: string)

  /** `AmazonSEO` (types.ts, lines 2-7). */
  datatype AmazonSeo = AmazonSeo(
    title: string,
    description: string,
    bulletPoints: seq<string>,
    averageSize: string)

  /** `TrendyolSEO` (types.ts, lines 9-12). */
  datatype TrendyolSeo = TrendyolSeo(title: string, description: string)

  datatype AmazonListing = AmazonListing(seo: AmazonSeo, prompts: ModelPrompts)

  datatype TrendyolListing = TrendyolListing(seo: TrendyolSeo, prompts: ModelPrompts)

  /** `PlatformResult` (types.ts, lines 14-24): what a successful generation
      stores. The application never looks inside it except to render it. */
  datatype PlatformResult = PlatformResult(
    modelName: string,
    amazon: Option<AmazonListing>,
    trendyol: Option<TrendyolListing>)
}
