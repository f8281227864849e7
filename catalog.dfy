/** The asset catalog: the ids, titles and task descriptions of the supported design types. */
module Catalog {
  import opened Wrappers

  datatype DesignType = DesignType(id: string, title: string, description: string)

  /** The task description of each design type, the text the request appends to the user's prompt. */
  const WebsiteTask := "Создайте полноценный макет сайта с мобильной и десктопной версией."
  const AppDesignTask := "Визуализируйте ключевой экран вашего будущего мобильного приложения."
  const MarketingKitTask := "Сгенерируйте ключевой слайд презентации о вашей компании."
  const LogoTask := "Разработайте уникальный и запоминающийся логотип для вашего бренда."
  const BusinessCardTask := "Создайте стильный дизайн визитной карточки."
  const YoutubeCoverTask := "Привлекающая внимание обложка для вашего видео."
  const ArticleCoverTask := "Иллюстрация, которая идеально дополнит ваш материал."
  const AdCreativeTask := "Создайте визуал для таргетированной рекламы в соцсетях."
  const PosterTask := "Дизайн плаката для мероприятия или рекламной кампании."
  const ChecklistTask := "Стильно оформите полезный чек-лист для вашей аудитории."
  const LeadMagnetTask := "Создайте привлекательную обложку для вашего PDF-гайда или книги."

  const Website := DesignType("website", "Дизайн сайта", WebsiteTask)
  const AppDesign := DesignType("app-design", "Дизайн приложений", AppDesignTask)
  const MarketingKit := DesignType("marketing-kit", "Маркетинг кит", MarketingKitTask)
  const Logo := DesignType("logo", "Логотип", LogoTask)
  const BusinessCard := DesignType("business-card", "Визитка", BusinessCardTask)
  const YoutubeCover := DesignType("youtube-cover", "Обложка для YouTube", YoutubeCoverTask)
  const ArticleCover := DesignType("article-cover", "Обложка для статьи", ArticleCoverTask)
  const AdCreative := DesignType("ad-creative", "Рекламный креатив", AdCreativeTask)
  const Poster := DesignType("poster", "Постер", PosterTask)
  const Checklist := DesignType("checklist", "Чек-лист", ChecklistTask)
  const LeadMagnet := DesignType("lead-magnet", "Лид-магнит", LeadMagnetTask)

  /** The catalog entries, in the order the catalog lists them. */
  const DesignTypes: seq<DesignType> := [
    Website, AppDesign, MarketingKit, Logo, BusinessCard, YoutubeCover, ArticleCover, AdCreative, Poster, Checklist, LeadMagnet
  ]

  /** `list.find(d => d.id === id)`: the first entry of `list` with that id. */
  function FindIn(list: seq<DesignType>, id: string): (r: Option<DesignType>)
    ensures r.Some? ==> r.value in list && r.value.id == id
    ensures r.None? <==> forall d :: d in list ==> d.id != id
    ensures r.Some? ==> exists i :: 0 <= i < |list| && list[i] == r.value && forall j :: 0 <= j < i ==> list[j].id != id
  {
    if list == [] then None
    else if list[0].id == id then Some(list[0])
    else FindIn(list[1..], id)
  }

  /** `DESIGN_TYPES.find(d => d.id === id)`. */
  function Find(id: string): Option<DesignType>
  {
    FindIn(DesignTypes, id)
  }

  /** The set of ids the catalog knows. */
  function KnownIds(): set<string>
  {
    set d | d in DesignTypes :: d.id
  }

  /** A lookup succeeds exactly for the catalog's ids, and then yields a titled entry with that id. */
  lemma FindKnown(id: string)
    ensures Find(id).Some? <==> id in KnownIds()
    ensures Find(id).Some? ==> Find(id).value in DesignTypes && Find(id).value.id == id && |Find(id).value.title| > 0
  {
    TitledEntries();
    if Find(id).Some? {
      var d := Find(id).value;
      assert d in DesignTypes;
    }
  }

  /** Every catalog entry has a title. */
  lemma TitledEntries()
    ensures forall d :: d in DesignTypes ==> |d.title| > 0
  {
    forall i | 0 <= i < |DesignTypes|
      ensures |DesignTypes[i].title| > 0
    {
    }
  }

  /** The catalog lists eleven design types, no id twice. */
  lemma IdsDistinct()
    ensures |DesignTypes| == 11
    ensures forall i, j :: 0 <= i < j < |DesignTypes| ==> DesignTypes[i].id != DesignTypes[j].id
  {
    forall i, j | 0 <= i < j < |DesignTypes|
      ensures DesignTypes[i].id != DesignTypes[j].id
    {
      assert |DesignTypes[i].id| != |DesignTypes[j].id| || DesignTypes[i].id[0] != DesignTypes[j].id[0];
    }
  }
}
