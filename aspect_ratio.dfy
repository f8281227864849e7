/** The aspect-ratio policy: which image shape each prompt field of each design type asks for. */
module AspectRatio {
  import opened JsText
  import Catalog

  /** The three shapes the image backend is asked for. */
  datatype AspectRatio = Wide | Square | Tall
  {
    /** The name the image backend's configuration takes. */
    function Name(): string
    {
      match this
      case Wide => "16:9"
      case Square => "1:1"
      case Tall => "9:16"
    }

    /** Horizontal part of the ratio. */
    function Across(): nat
    {
      match this
      case Wide => 16
      case Square => 1
      case Tall => 9
    }

    /** Vertical part of the ratio. */
    function Down(): nat
    {
      match this
      case Wide => 9
      case Square => 1
      case Tall => 16
    }
  }

  /** A field whose name mentions an avatar always gets a square image. */
  predicate IsAvatarKey(key: string)
  {
    Contains(Lower(key), "avatar")
  }

  /** `getAspectRatioForAsset(designTypeId, key)`: the avatar override, then a switch on the type. */
  function RatioFor(designTypeId: string, key: string): AspectRatio
  {
    if IsAvatarKey(key) then Square
    else if designTypeId == "youtube-cover" || designTypeId == "marketing-kit" then Wide
    else if designTypeId == "ad-creative" then Square
    else if designTypeId == "lead-magnet" || designTypeId == "checklist" || designTypeId == "app-design"
         || designTypeId == "business-card" || designTypeId == "poster" then Tall
    else Square
  }

  /** The design types with an explicit shape; every other type gets a square image. */
  const ShapeTable: map<string, AspectRatio> := map[
    "youtube-cover" := Wide,
    "marketing-kit" := Wide,
    "ad-creative" := Square,
    "lead-magnet" := Tall,
    "checklist" := Tall,
    "app-design" := Tall,
    "business-card" := Tall,
    "poster" := Tall
  ]

  /** Any key containing "avatar", in any case, gets 1:1 whatever the design type. */
  lemma AvatarOverride(designTypeId: string, key: string)
    requires IsAvatarKey(key)
    ensures RatioFor(designTypeId, key) == Square
  {
  }

  /** Away from avatars the ratio is the table entry of the design type, and 1:1 off the table. */
  lemma RatioFollowsTable(designTypeId: string, key: string)
    requires !IsAvatarKey(key)
    ensures designTypeId in ShapeTable ==> RatioFor(designTypeId, key) == ShapeTable[designTypeId]
    ensures designTypeId !in ShapeTable ==> RatioFor(designTypeId, key) == Square
  {
  }

  /** Away from avatars the key plays no part: two fields of one design type get the same shape. */
  lemma RatioIgnoresOtherKeys(designTypeId: string, key1: string, key2: string)
    requires !IsAvatarKey(key1) && !IsAvatarKey(key2)
    ensures RatioFor(designTypeId, key1) == RatioFor(designTypeId, key2)
  {
  }

  /** The catalog types left out of the table: website, logo and article-cover are square. */
  lemma UntabledCatalogTypesAreSquare(designTypeId: string, key: string)
    requires designTypeId in Catalog.KnownIds() && designTypeId !in ShapeTable
    ensures designTypeId in {"website", "logo", "article-cover"}
    ensures RatioFor(designTypeId, key) == Square
  {
  }

  /** A key in which the letter v does not occur, in either case, is no avatar key. */
  lemma {:induction false} NoVNoAvatar(key: string)
    requires forall i :: 0 <= i < |key| ==> key[i] != 'v' && key[i] != 'V'
    ensures !IsAvatarKey(key)
  {
    var low := Lower(key);
    if Contains(low, "avatar") {
      ContainsHasChar(low, "avatar", 1);
    }
  }

  /** The background prompt of the generated documents mentions no avatar. */
  lemma BackgroundIsNoAvatarKey()
    ensures !IsAvatarKey("backgroundImagePrompt")
  {
    NoVNoAvatar("backgroundImagePrompt");
  }

  /** An avatar prompt gets 1:1 for any type. */
  lemma AvatarPromptIsSquare(designTypeId: string)
    ensures RatioFor(designTypeId, "avatarPrompt") == Square
  {
    assert StartsWith(Lower("avatarPrompt"), "avatar");
  }

  /** A YouTube cover's background gets 16:9. */
  lemma YoutubeBackgroundIsWide()
    ensures RatioFor("youtube-cover", "backgroundImagePrompt") == Wide
  {
    BackgroundIsNoAvatarKey();
  }

  /** A business card's background gets 9:16. */
  lemma BusinessCardBackgroundIsTall()
    ensures RatioFor("business-card", "backgroundImagePrompt") == Tall
  {
    BackgroundIsNoAvatarKey();
  }
}
