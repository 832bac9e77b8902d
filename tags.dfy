/** The static queries and the default-tag seeding of Tag.java, over the tags table. */
module Tags {
  import opened Common
  import opened Entities

  /** The active tags of `ts`, in table order. */
  function ActiveTags(ts: seq<Tag>): (r: seq<Tag>)
    ensures forall t :: t in r <==> t in ts && t.isActive
    ensures |r| <= |ts|
  {
    if ts == [] then []
    else (if ts[0].isActive then [ts[0]] else []) + ActiveTags(ts[1..])
  }

  /** The active tags of `ts` in `category`, in table order. */
  function ActiveTagsIn(ts: seq<Tag>, category: string): (r: seq<Tag>)
    ensures forall t :: t in r <==> t in ts && t.isActive && t.category == category
  {
    if ts == [] then []
    else
      var head := if ts[0].isActive && ts[0].category == category then [ts[0]] else [];
      head + ActiveTagsIn(ts[1..], category)
  }

  /** The names of `ts`, position by position. */
  function Names(ts: seq<Tag>): (r: seq<string>)
    ensures |r| == |ts| && forall i :: 0 <= i < |ts| ==> r[i] == ts[i].name
  {
    if ts == [] then [] else [ts[0].name] + Names(ts[1..])
  }

  /** Position of the first active tag named exactly `name`. */
  function IndexOfActiveName(ts: seq<Tag>, name: string): (r: Option<nat>)
    ensures r.Some? ==> r.value < |ts| && ts[r.value].isActive && ts[r.value].name == name
    ensures r.Some? ==> forall k :: 0 <= k < r.value ==> !(ts[k].isActive && ts[k].name == name)
    ensures r.None? <==> forall k :: 0 <= k < |ts| ==> !(ts[k].isActive && ts[k].name == name)
  {
    if ts == [] then None
    else if ts[0].isActive && ts[0].name == name then Some(0)
    else
      match IndexOfActiveName(ts[1..], name)
      case None => None
      case Some(i) => Some(i + 1)
  }

  /** Tag.findAllActiveTags. */
  function FindAllActiveTags(db: Database): (r: seq<Tag>)
    reads db`tags
    ensures forall t :: t in r <==> t in db.tags && t.isActive
  {
    ActiveTags(db.tags)
  }

  /** Tag.findByCategory: only active tags of that category. */
  function FindByCategory(db: Database, category: string): (r: seq<Tag>)
    reads db`tags
    ensures forall t :: t in r <==> t in db.tags && t.isActive && t.category == category
  {
    ActiveTagsIn(db.tags, category)
  }

  /** Tag.findByName: an active tag with exactly that name, or none when there is none. */
  function FindByName(db: Database, name: string): (r: Option<Tag>)
    reads db`tags
    ensures r.Some? ==> r.value in db.tags && r.value.isActive && r.value.name == name
    ensures r.None? <==> forall t :: t in db.tags ==> !(t.isActive && t.name == name)
  {
    match IndexOfActiveName(db.tags, name)
    case None => None
    case Some(i) => Some(db.tags[i])
  }

  /** Tag.getAllTagNames: exactly the names of the active tags. */
  function GetAllTagNames(db: Database): (r: seq<string>)
    reads db`tags
    ensures forall n :: n in r <==> exists t :: t in db.tags && t.isActive && t.name == n
  {
    var active := ActiveTags(db.tags);
    var r := Names(active);
    assert forall n :: n in r ==> exists i :: 0 <= i < |active| && active[i].name == n;
    r
  }

  /*
   * The default tags `createDefaultTags` persists, in order, ids counting up
   * from `f`; one block per comment heading in the source (the "Style tags"
   * block also holds a genre and a medium tag).
   */

  function StyleBlock(f: nat): seq<Tag> {
    [ Tag(f, "Portrait", "Portrait artwork", "style", true),
      Tag(f + 1, "Character Design", "Character design and concepts", "style", true),
      Tag(f + 2, "Illustration", "General illustration work", "style", true),
      Tag(f + 3, "Fantasy", "Fantasy themed artwork", "genre", true),
      Tag(f + 4, "Animation", "Animation and motion graphics", "medium", true) ]
  }

  function MediumBlock(f: nat): seq<Tag> {
    [ Tag(f, "Digital", "Digital artwork", "medium", true),
      Tag(f + 1, "Traditional", "Traditional media artwork", "medium", true),
      Tag(f + 2, "3D", "3D modeling and rendering", "medium", true),
      Tag(f + 3, "Pixel Art", "Pixel art style", "medium", true) ]
  }

  function ContentBlock(f: nat): seq<Tag> {
    [ Tag(f, "NSFW", "Not safe for work content", "content", true),
      Tag(f + 1, "SFW", "Safe for work content", "content", true),
      Tag(f + 2, "Gore", "Gore and violence content", "content", true) ]
  }

  function GenreBlock(f: nat): seq<Tag> {
    [ Tag(f, "Sci-Fi", "Science fiction themed", "genre", true),
      Tag(f + 1, "Horror", "Horror themed artwork", "genre", true),
      Tag(f + 2, "Romance", "Romance themed artwork", "genre", true),
      Tag(f + 3, "Abstract", "Abstract art", "genre", true) ]
  }

  function DefaultTags(f: nat): seq<Tag> {
    StyleBlock(f) + MediumBlock(f + 5) + ContentBlock(f + 9) + GenreBlock(f + 12)
  }

  /** The default names, in creation order. */
  const DefaultNames: seq<string> :=
    ["Portrait", "Character Design", "Illustration", "Fantasy", "Animation", "Digital", "Traditional", "3D",
     "Pixel Art", "NSFW", "SFW", "Gore", "Sci-Fi", "Horror", "Romance", "Abstract"]

  /** Sixteen active tags with consecutive ids from `f` on, carrying the default names in order. */
  lemma {:induction false} DefaultTagsShape(f: nat)
    ensures |DefaultTags(f)| == 16
    ensures forall i :: 0 <= i < 16 ==>
      DefaultTags(f)[i].id == f + i && DefaultTags(f)[i].isActive && DefaultTags(f)[i].name == DefaultNames[i]
  {
    var r := DefaultTags(f);
    var s, m, c, g := StyleBlock(f), MediumBlock(f + 5), ContentBlock(f + 9), GenreBlock(f + 12);
    assert r == s + m + c + g;
    forall i | 0 <= i < 16
      ensures r[i].id == f + i && r[i].isActive && r[i].name == DefaultNames[i]
    {
      if i < 5 {
        assert r[i] == s[i];
      } else if i < 9 {
        assert r[i] == m[i - 5];
      } else if i < 12 {
        assert r[i] == c[i - 9];
      } else {
        assert r[i] == g[i - 12];
      }
    }
  }

  /**
   * Length and first character, packed into one number; two names with
   * different keys are different names.
   */
  function NameKey(s: string): int {
    if s == [] then 0 else |s| * 0x110000 + s[0] as int
  }

  /** The keys of the default names, in order. */
  const DefaultKeys: seq<int> :=
    [8 * 0x110000 + 'P' as int, 16 * 0x110000 + 'C' as int, 12 * 0x110000 + 'I' as int,
     7 * 0x110000 + 'F' as int, 9 * 0x110000 + 'A' as int, 7 * 0x110000 + 'D' as int,
     11 * 0x110000 + 'T' as int, 2 * 0x110000 + '3' as int, 9 * 0x110000 + 'P' as int,
     4 * 0x110000 + 'N' as int, 3 * 0x110000 + 'S' as int, 4 * 0x110000 + 'G' as int,
     6 * 0x110000 + 'S' as int, 6 * 0x110000 + 'H' as int, 7 * 0x110000 + 'R' as int,
     8 * 0x110000 + 'A' as int]

  lemma {:induction false} DefaultKeysDistinct()
    ensures forall i, j :: 0 <= i < j < 16 ==> DefaultKeys[i] != DefaultKeys[j]
  {
    forall i | 0 <= i < 16 ensures forall j :: i < j < 16 ==> DefaultKeys[i] != DefaultKeys[j] {
    }
  }

  /** The default names are pairwise distinct (the tag name column is unique). */
  lemma {:induction false} DefaultNamesDistinct()
    ensures forall i, j :: 0 <= i < j < |DefaultNames| ==> DefaultNames[i] != DefaultNames[j]
  {
    forall i | 0 <= i < 16 ensures NameKey(DefaultNames[i]) == DefaultKeys[i] {
    }
    DefaultKeysDistinct();
  }

  /**
   * The table and id counter `createDefaultTags` leaves: nothing happens
   * when any tag (active or not) exists, else the sixteen defaults.
   */
  function SeedDefaults(tags: seq<Tag>, nextId: nat): (r: (seq<Tag>, nat))
    ensures |tags| > 0 ==> r == (tags, nextId)
    ensures |tags| == 0 ==> |r.0| == 16 && r.1 == nextId + 16
    ensures |tags| == 0 ==> forall i :: 0 <= i < 16 ==> r.0[i].isActive && r.0[i].id == nextId + i
    ensures |tags| == 0 ==> forall i, j :: 0 <= i < j < 16 ==> r.0[i].name != r.0[j].name
  {
    DefaultTagsShape(nextId);
    DefaultNamesDistinct();
    if |tags| > 0 then (tags, nextId) else (DefaultTags(nextId), nextId + 16)
  }

  /** Seeding twice is seeding once. */
  lemma SeedDefaultsIdempotent(tags: seq<Tag>, nextId: nat)
    ensures SeedDefaults(SeedDefaults(tags, nextId).0, SeedDefaults(tags, nextId).1)
            == SeedDefaults(tags, nextId)
  {
  }

  /** Tag.createTag: one active tag, persisted last. */
  method CreateTag(db: Database, name: string, description: string, category: string)
    modifies db`tags, db`nextId
    ensures db.tags == old(db.tags) + [Tag(old(db.nextId), name, description, category, true)]
    ensures db.nextId == old(db.nextId) + 1
  {
    var id := db.NewId();
    db.tags := db.tags + [Tag(id, name, description, category, true)];
  }

  /** The calls under the "Style tags" heading of createDefaultTags. */
  method CreateStyleTags(db: Database)
    modifies db`tags, db`nextId
    ensures db.tags == old(db.tags) + StyleBlock(old(db.nextId)) && db.nextId == old(db.nextId) + 5
  {
    CreateTag(db, "Portrait", "Portrait artwork", "style");
    CreateTag(db, "Character Design", "Character design and concepts", "style");
    CreateTag(db, "Illustration", "General illustration work", "style");
    CreateTag(db, "Fantasy", "Fantasy themed artwork", "genre");
    CreateTag(db, "Animation", "Animation and motion graphics", "medium");
  }

  /** The calls under the "Medium tags" heading. */
  method CreateMediumTags(db: Database)
    modifies db`tags, db`nextId
    ensures db.tags == old(db.tags) + MediumBlock(old(db.nextId)) && db.nextId == old(db.nextId) + 4
  {
    CreateTag(db, "Digital", "Digital artwork", "medium");
    CreateTag(db, "Traditional", "Traditional media artwork", "medium");
    CreateTag(db, "3D", "3D modeling and rendering", "medium");
    CreateTag(db, "Pixel Art", "Pixel art style", "medium");
  }

  /** The calls under the "Content tags" heading. */
  method CreateContentTags(db: Database)
    modifies db`tags, db`nextId
    ensures db.tags == old(db.tags) + ContentBlock(old(db.nextId)) && db.nextId == old(db.nextId) + 3
  {
    CreateTag(db, "NSFW", "Not safe for work content", "content");
    CreateTag(db, "SFW", "Safe for work content", "content");
    CreateTag(db, "Gore", "Gore and violence content", "content");
  }

  /** The calls under the "Genre tags" heading. */
  method CreateGenreTags(db: Database)
    modifies db`tags, db`nextId
    ensures db.tags == old(db.tags) + GenreBlock(old(db.nextId)) && db.nextId == old(db.nextId) + 4
  {
    CreateTag(db, "Sci-Fi", "Science fiction themed", "genre");
    CreateTag(db, "Horror", "Horror themed artwork", "genre");
    CreateTag(db, "Romance", "Romance themed artwork", "genre");
    CreateTag(db, "Abstract", "Abstract art", "genre");
  }

  /** Tag.createDefaultTags. */
  method CreateDefaultTags(db: Database)
    modifies db`tags, db`nextId
    ensures (db.tags, db.nextId) == SeedDefaults(old(db.tags), old(db.nextId))
  {
    if |db.tags| > 0 {
      return;
    }
    assert db.tags == [];
    CreateStyleTags(db);
    CreateMediumTags(db);
    CreateContentTags(db);
    CreateGenreTags(db);
    assert db.tags == DefaultTags(old(db.nextId));
  }
}
