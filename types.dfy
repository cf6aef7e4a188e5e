/**
 * The domain records the console edits, as its type declarations give them,
 * and the JavaScript objects those records are at run time.
 */
module Types {
  import opened JsString
  import opened JsValue

  datatype HeroData = HeroData(greeting: string, name: string, title: string, subtitle: string)

  /** `labelText` is the item's `label` (a reserved word in Dafny). */
  datatype InfoItem = InfoItem(id: string, icon: string, labelText: string, value: string)

  datatype AboutData = AboutData(imageUrl: string, description: string, infoItems: seq<InfoItem>)

  /**
   * A skill as `types.ts` declares it. The rows `getSkillCategories` returns
   * are not mapped to this shape: the skills editor holds them as rows (see
   * `SkillsView.IsSkillRow`).
   */
  datatype Skill = Skill(id: int, name: string, isLearning: bool, categoryId: int)

  datatype SkillCategory = SkillCategory(id: int, name: string, skills: seq<Skill>)

  /** A project without its id: what the project form edits and saves. */
  datatype ProjectData = ProjectData(
    title: string,
    description: string,
    imageUrl: string,
    tags: seq<string>,
    demoUrl: Option<string>,
    repoUrl: Option<string>,
    isFeatured: bool)

  datatype Project = Project(id: int, data: ProjectData)

  datatype SocialLink = SocialLink(id: int, platform: string, url: string)

  function OptionalStr(o: Option<string>): Value {
    match o
    case None => Undefined
    case Some(s) => Str(s)
  }

  function Strs(ss: seq<string>): Value {
    Arr(seq(|ss|, i requires 0 <= i < |ss| => Str(ss[i])))
  }

  function HeroValue(h: HeroData): Value {
    Obj(["greeting", "name", "title", "subtitle"],
        map["greeting" := Str(h.greeting), "name" := Str(h.name),
            "title" := Str(h.title), "subtitle" := Str(h.subtitle)])
  }

  function InfoItemValue(item: InfoItem): Value {
    Obj(["id", "icon", "label", "value"],
        map["id" := Str(item.id), "icon" := Str(item.icon),
            "label" := Str(item.labelText), "value" := Str(item.value)])
  }

  function AboutValue(a: AboutData): Value {
    Obj(["imageUrl", "description", "infoItems"],
        map["imageUrl" := Str(a.imageUrl), "description" := Str(a.description),
            "infoItems" := Arr(seq(|a.infoItems|, i requires 0 <= i < |a.infoItems| =>
                                 InfoItemValue(a.infoItems[i])))])
  }

  function ProjectDataValue(p: ProjectData): Value {
    Obj(["title", "description", "imageUrl", "tags", "demoUrl", "repoUrl", "isFeatured"],
        map["title" := Str(p.title), "description" := Str(p.description),
            "imageUrl" := Str(p.imageUrl), "tags" := Strs(p.tags),
            "demoUrl" := OptionalStr(p.demoUrl), "repoUrl" := OptionalStr(p.repoUrl),
            "isFeatured" := Bool(p.isFeatured)])
  }

  function SocialLinkValue(l: SocialLink): Value {
    Obj(["id", "platform", "url"],
        map["id" := Num(l.id), "platform" := Str(l.platform), "url" := Str(l.url)])
  }

  /** A skill as a row of the `skills` table: the flag is the `is_learning` column. */
  function SkillRowValue(s: Skill): Value {
    Obj(["id", "name", "is_learning", "category_id"],
        map["id" := Num(s.id), "name" := Str(s.name),
            "is_learning" := Bool(s.isLearning), "category_id" := Num(s.categoryId)])
  }

  /** A category as `select=*,skills(*)` returns it: its row with its skills' rows embedded. */
  function CategoryRowValue(c: SkillCategory): Value {
    Obj(["id", "name", "skills"],
        map["id" := Num(c.id), "name" := Str(c.name),
            "skills" := Arr(seq(|c.skills|, i requires 0 <= i < |c.skills| => SkillRowValue(c.skills[i])))])
  }
}
