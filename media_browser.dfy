/** media_browser.py: the tables that translate a Jellyfin item type into a
    Home Assistant media type, media class and playability, and
    `library_items`, which builds one level of the media-browser tree from what
    the server answers.

    The device's server calls are parameters: `fetchItem(id)` is what
    `device.get_item(id)` returns, `fetchItems(q)` the list `device.get_items(q)`
    returns, and a thumbnail is recorded as the artwork request
    `device.get_artwork_url(id)` makes instead of the URL it builds. */
module MediaBrowser {
  import opened PyValues

  // ---------------------------------------------------------------------
  // Home Assistant media constants (homeassistant.components.media_player.const)

  const MediaClassAlbum := "album"
  const MediaClassArtist := "artist"
  const MediaClassChannel := "channel"
  const MediaClassDirectory := "directory"
  const MediaClassEpisode := "episode"
  const MediaClassMovie := "movie"
  const MediaClassPlaylist := "playlist"
  const MediaClassSeason := "season"
  const MediaClassTrack := "track"
  const MediaClassTvShow := "tv_show"

  const MediaTypeAlbum := "album"
  const MediaTypeArtist := "artist"
  const MediaTypeChannel := "channel"
  const MediaTypeEpisode := "episode"
  const MediaTypeMovie := "movie"
  const MediaTypePlaylist := "playlist"
  const MediaTypeSeason := "season"
  const MediaTypeTrack := "track"
  const MediaTypeTvShow := "tvshow"

  /** The content type of the root of the browse tree. */
  const Library := "library"

  // ---------------------------------------------------------------------
  // Type tables

  /** The Jellyfin item types the three tables know. */
  const JellyfinTypes: set<string> :=
    {"Movie", "Series", "Season", "Episode", "Music", "Audio", "BoxSet", "Folder",
     "CollectionFolder", "Playlist", "MusicArtist", "MusicAlbum"}

  /** The item types that are browsed as plain directories. */
  const DirectoryTypes: set<string> := {"BoxSet", "Folder", "CollectionFolder", "Playlist"}

  /** The item types `IsPlayable` answers False for. */
  const UnplayableTypes: set<string> := {"Music", "Folder", "CollectionFolder"}

  /** The `switcher` of `Type2Mediatype` (its literal lists "Audio" twice with the same value). */
  const MediaTypeTable: map<string, string> := map[
    "Movie" := MediaTypeMovie,
    "Series" := MediaTypeTvShow,
    "Season" := MediaTypeSeason,
    "Episode" := MediaTypeEpisode,
    "Music" := MediaTypeAlbum,
    "Audio" := MediaTypeTrack,
    "BoxSet" := MediaClassDirectory,
    "Folder" := MediaClassDirectory,
    "CollectionFolder" := MediaClassDirectory,
    "Playlist" := MediaClassDirectory,
    "MusicArtist" := MediaTypeArtist,
    "MusicAlbum" := MediaTypeAlbum]

  /** The `switcher` of `Type2Mediaclass`. */
  const MediaClassTable: map<string, string> := map[
    "Movie" := MediaClassMovie,
    "Series" := MediaClassTvShow,
    "Season" := MediaClassSeason,
    "Episode" := MediaClassEpisode,
    "Music" := MediaClassDirectory,
    "BoxSet" := MediaClassDirectory,
    "Folder" := MediaClassDirectory,
    "CollectionFolder" := MediaClassDirectory,
    "Playlist" := MediaClassDirectory,
    "MusicArtist" := MediaClassArtist,
    "MusicAlbum" := MediaClassAlbum,
    "Audio" := MediaClassTrack]

  /** The `switcher` of `IsPlayable`. */
  const PlayableTable: map<string, bool> := map[
    "Movie" := true,
    "Series" := true,
    "Season" := true,
    "Episode" := true,
    "Music" := false,
    "BoxSet" := true,
    "Folder" := false,
    "CollectionFolder" := false,
    "Playlist" := true,
    "MusicArtist" := true,
    "MusicAlbum" := true,
    "Audio" := true]

  /** `switcher[key]` on a dict with str keys: a str key yields its entry or
      raises KeyError; None, a bool or an int is hashable but never equal to a
      str key (KeyError); a list or a dict is unhashable (TypeError). */
  function TableLookup<V>(table: map<string, V>, key: Json): (r: Result<V>)
    ensures r.Ok? <==> key.Str? && key.s in table
    ensures r.Ok? ==> r.value == table[key.s]
    ensures r.Err? ==> r.error == (if key.IsContainer() then TypeError else KeyError)
  {
    if key.IsContainer() then Err(TypeError)
    else if key.Str? && key.s in table then Ok(table[key.s])
    else Err(KeyError)
  }

  /** `Type2Mediatype(type)`: defined exactly for the Jellyfin types; the four
      directory types become the directory class. */
  function Type2Mediatype(t: Json): (r: Result<string>)
    ensures r.Ok? <==> t.Str? && t.s in JellyfinTypes
    ensures r.Err? ==> r.error == (if t.IsContainer() then TypeError else KeyError)
    ensures r == Ok(MediaClassDirectory) <==> t.Str? && t.s in DirectoryTypes
  {
    TableLookup(MediaTypeTable, t)
  }

  /** `Type2Mediaclass(type)`: defined exactly for the Jellyfin types; the
      directory types and "Music" become the directory class. */
  function Type2Mediaclass(t: Json): (r: Result<string>)
    ensures r.Ok? <==> t.Str? && t.s in JellyfinTypes
    ensures r.Err? ==> r.error == (if t.IsContainer() then TypeError else KeyError)
    ensures r == Ok(MediaClassDirectory) <==> t.Str? && t.s in DirectoryTypes + {"Music"}
  {
    TableLookup(MediaClassTable, t)
  }

  /** `IsPlayable(type)`: False exactly for "Music", "Folder" and
      "CollectionFolder", True for the other Jellyfin types, an exception otherwise. */
  function IsPlayable(t: Json): (r: Result<bool>)
    ensures r.Ok? <==> t.Str? && t.s in JellyfinTypes
    ensures r.Err? ==> r.error == (if t.IsContainer() then TypeError else KeyError)
    ensures r == Ok(false) <==> t.Str? && t.s in UnplayableTypes
    ensures r == Ok(true) <==> t.Str? && t.s in JellyfinTypes - UnplayableTypes
  {
    TableLookup(PlayableTable, t)
  }

  /** The three tables are defined for the same item types, and a directory
      type is a directory in both the media-type and the media-class table. */
  lemma TablesAgree(t: Json)
    ensures Type2Mediatype(t).Ok? <==> Type2Mediaclass(t).Ok?
    ensures Type2Mediatype(t).Ok? <==> IsPlayable(t).Ok?
    ensures Type2Mediatype(t) == Ok(MediaClassDirectory) ==> Type2Mediaclass(t) == Ok(MediaClassDirectory)
  {
  }

  // ---------------------------------------------------------------------
  // The browse tree

  /** A field value, or the 1-tuple `(value,)` that a trailing comma in an
      assignment makes of it. */
  datatype Boxed<T> = Plain(v: T) | Single(v: T)

  /** Python truthiness of a boxed flag: a non-empty tuple is always true. */
  predicate FlagTruthy(b: Boxed<bool>) {
    match b
    case Plain(x) => x
    case Single(_) => true
  }

  /** The thumbnail of a node: none, or the URL of the "Primary" artwork of
      the item `mediaId` at width 500. */
  datatype Thumbnail = NoThumbnail | Artwork(mediaId: Json)

  /** The query `get_items` is given. */
  datatype Query = NoQuery | ByParent(parentId: Json) | ById(id: Json)

  /** The value of a `BrowseMedia` node with its children. */
  datatype Node = Node(mediaClass: string, contentId: Boxed<Json>, contentType: string, title: Json,
                       canPlay: Boxed<bool>, canExpand: bool, thumbnail: Thumbnail, children: seq<Node>)

  /** A browse of the root: no content type, or "library". */
  predicate IsRoot(contentType: Option<string>) {
    contentType.None? || contentType.value == Library
  }

  /** The content types that are browsed by listing the children of an item. */
  predicate IsContainer(contentType: Option<string>) {
    contentType.Some? && contentType.value in
      [MediaClassDirectory, MediaTypeArtist, MediaTypeAlbum, MediaTypePlaylist, MediaTypeTvShow, MediaTypeSeason]
  }

  /** The query a browse sends. */
  function BrowseQuery(contentType: Option<string>, contentId: Json): (r: Query)
    ensures r.NoQuery? <==> IsRoot(contentType)
    ensures r.ByParent? ==> r.parentId == contentId
    ensures r.ById? ==> r.id == contentId
  {
    if IsRoot(contentType) then NoQuery
    else if IsContainer(contentType) then ByParent(contentId)
    else ById(contentId)
  }

  /** The node `library_items` builds before it looks at the items; `parent`
      is the item `get_item` returned, used by a container browse only. */
  function Header(contentType: Option<string>, contentId: Json, parent: Json): (r: Result<Node>)
    ensures r.Err? ==> !IsRoot(contentType) && IsContainer(contentType)
    ensures r.Ok? ==> r.value.children == [] && r.value.contentId.Plain? && r.value.canPlay.Plain?
    ensures r.Ok? && !IsRoot(contentType) ==>
              r.value.contentId == Plain(contentId) && r.value.thumbnail == Artwork(contentId)
    ensures r.Ok? ==> (r.value.canExpand <==> IsRoot(contentType) || IsContainer(contentType))
  {
    if IsRoot(contentType) then
      Ok(Node(MediaClassDirectory, Plain(Str(Library)), Library, Str("Media Library"),
              Plain(false), true, NoThumbnail, []))
    else if IsContainer(contentType) then
      var name :- Index(parent, "Name");
      var itemType :- Index(parent, "Type");
      var playable :- IsPlayable(itemType);
      Ok(Node(contentType.value, Plain(contentId), contentType.value, name,
              Plain(playable), true, Artwork(contentId), []))
    else
      Ok(Node(MediaClassDirectory, Plain(contentId), contentType.value, Str(""),
              Plain(true), false, Artwork(contentId), []))
  }

  /** The child node for one item of a root or container browse, with the
      item's fields read in the order the constructor call reads them. */
  function ChildNode(item: Json): (r: Result<Node>)
    ensures r.Ok? ==> item.Object? && "Id" in item.fields && "Name" in item.fields && "IsFolder" in item.fields
    ensures r.Ok? ==> && r.value.contentId == Plain(item.fields["Id"])
                      && r.value.thumbnail == Artwork(item.fields["Id"])
                      && r.value.title == item.fields["Name"]
                      && (r.value.canExpand <==> Truthy(item.fields["IsFolder"]))
                      && r.value.children == []
  {
    var folder :- Index(item, "IsFolder");
    var itemType :- Index(item, "Type");
    var mediaClass :- Type2Mediaclass(itemType);
    var id :- Index(item, "Id");
    var mediaType :- Type2Mediatype(itemType);
    var name :- Index(item, "Name");
    var playable :- IsPlayable(itemType);
    Ok(Node(mediaClass, Plain(id), mediaType, name, Plain(playable), Truthy(folder), Artwork(id), []))
  }

  /** The children of a root or container browse: one node per item, in
      order; the first item that raises stops the browse with its exception. */
  function Children(items: seq<Json>): (r: Result<seq<Node>>)
    ensures r.Ok? <==> forall i :: 0 <= i < |items| ==> ChildNode(items[i]).Ok?
    ensures r.Ok? ==> |r.value| == |items|
    ensures r.Ok? ==> forall i :: 0 <= i < |items| ==> ChildNode(items[i]) == Ok(r.value[i])
    decreases |items|
  {
    if items == [] then Ok([])
    else
      var front :- Children(items[..|items| - 1]);
      var last :- ChildNode(items[|items| - 1]);
      Ok(front + [last])
  }

  /** The exception of a failed `Children` is that of the first item that raises. */
  lemma {:induction false} ChildrenFirstError(items: seq<Json>)
    requires Children(items).Err?
    ensures exists i :: 0 <= i < |items| && ChildNode(items[i]) == Err(Children(items).error)
                        && forall j :: 0 <= j < i ==> ChildNode(items[j]).Ok?
    decreases |items|
  {
    var n := |items| - 1;
    if Children(items[..n]).Err? {
      ChildrenFirstError(items[..n]);
      var i :| 0 <= i < n && ChildNode(items[..n][i]) == Err(Children(items[..n]).error)
               && forall j :: 0 <= j < i ==> ChildNode(items[..n][j]).Ok?;
      assert forall j :: 0 <= j < i ==> items[..n][j] == items[j];
      assert ChildNode(items[i]) == Err(Children(items).error);
    } else {
      assert forall j :: 0 <= j < n ==> ChildNode(items[..n][j]).Ok?;
      assert forall j :: 0 <= j < n ==> items[..n][j] == items[j];
      assert ChildNode(items[n]) == Err(Children(items).error);
    }
  }

  /** Once an item raises, the later items change nothing. */
  lemma {:induction false} ChildrenErrorSticks(items: seq<Json>, k: nat)
    requires k <= |items|
    requires Children(items[..k]).Err?
    ensures Children(items) == Children(items[..k])
    decreases |items|
  {
    if k < |items| {
      assert items[..|items| - 1][..k] == items[..k];
      ChildrenErrorSticks(items[..|items| - 1], k);
    } else {
      assert items[..k] == items;
    }
  }

  /** The fields the leaf branch assigns from the first item, in the order of
      its assignments, as written: the trailing commas turn the id and the
      play flag into 1-tuples. The browse below uses `LeafUpdateIntended`. */
  function LeafUpdate(node: Node, item: Json): (r: Result<Node>)
    ensures r.Ok? ==> item.Object? && "Id" in item.fields && "Name" in item.fields
    ensures r.Ok? ==> && r.value.contentId == Single(item.fields["Id"]) && r.value.canPlay.Single?
                      && r.value.title == item.fields["Name"] && !r.value.canExpand
                      && r.value.thumbnail == node.thumbnail && r.value.children == node.children
  {
    var name :- Index(item, "Name");
    var id :- Index(item, "Id");
    var itemType :- Index(item, "Type");
    var mediaType :- Type2Mediatype(itemType);
    var mediaClass :- Type2Mediaclass(itemType);
    var playable :- IsPlayable(itemType);
    Ok(node.(title := name, contentId := Single(id), contentType := mediaType,
             mediaClass := mediaClass, canExpand := false, canPlay := Single(playable)))
  }

  /** `library_items(device, media_content_type, media_content_id)` when the
      query is answered by `items`. */
  function BrowseItems(contentType: Option<string>, contentId: Json, parent: Json, items: seq<Json>): (r: Result<Node>)
    ensures r.Ok? && (IsRoot(contentType) || IsContainer(contentType)) ==> |r.value.children| == |items|
    ensures r.Ok? && !(IsRoot(contentType) || IsContainer(contentType)) ==> r.value.children == []
  {
    var header :- Header(contentType, contentId, parent);
    Fill(header, IsRoot(contentType) || IsContainer(contentType), items)
  }

  /** The loop over the items: it lists them as children of `header`, or
      (`listing` false) updates `header` from the first one. */
  function Fill(header: Node, listing: bool, items: seq<Json>): (r: Result<Node>)
    ensures listing ==> (r.Ok? <==> Children(items).Ok?)
    ensures listing && r.Ok? ==> r.value == header.(children := Children(items).value)
    ensures !listing && items == [] ==> r == Ok(header)
    ensures !listing && r.Ok? ==> r.value.children == header.children
  {
    if listing then
      var children :- Children(items);
      Ok(header.(children := children))
    else if items == [] then Ok(header)
    else LeafUpdateIntended(header, items[0])
  }

  /** `library_items` against a server: the query and the parent fetch it makes. */
  function Browse(contentType: Option<string>, contentId: Json,
                  fetchItem: Json -> Json, fetchItems: Query -> seq<Json>): (r: Result<Node>)
    ensures r.Ok? && (IsRoot(contentType) || IsContainer(contentType)) ==>
              |r.value.children| == |fetchItems(BrowseQuery(contentType, contentId))|
  {
    BrowseItems(contentType, contentId, fetchItem(contentId), fetchItems(BrowseQuery(contentType, contentId)))
  }

  // ---------------------------------------------------------------------
  // Properties of a browse

  /** The queries: none for the root, by ParentId for a container, by Id otherwise. */
  lemma QueryKinds(contentType: Option<string>, contentId: Json)
    ensures BrowseQuery(contentType, contentId).NoQuery? <==> IsRoot(contentType)
    ensures BrowseQuery(contentType, contentId) == ByParent(contentId) <==> !IsRoot(contentType) && IsContainer(contentType)
    ensures BrowseQuery(contentType, contentId) == ById(contentId) <==> !IsRoot(contentType) && !IsContainer(contentType)
  {
  }

  /** A root browse is the "Media Library" directory with id "library", not
      playable and expandable, whatever the parent item. */
  lemma RootNode(contentType: Option<string>, contentId: Json, parent: Json, items: seq<Json>)
    requires IsRoot(contentType)
    requires BrowseItems(contentType, contentId, parent, items).Ok?
    ensures var n := BrowseItems(contentType, contentId, parent, items).value;
      n.mediaClass == MediaClassDirectory && n.contentId == Plain(Str(Library)) && n.contentType == Library
      && n.title == Str("Media Library") && n.canPlay == Plain(false) && n.canExpand
      && n.thumbnail == NoThumbnail
  {
  }

  /** A root or container browse succeeds exactly when every item yields a
      child, and then has one child per item, in order: an item's child is
      expandable exactly when its IsFolder is true, has the item's id and
      name, the item type's tables' media class, media type and play flag,
      and no children of its own. */
  lemma ContainerChildren(contentType: Option<string>, contentId: Json, parent: Json, items: seq<Json>)
    requires IsRoot(contentType) || IsContainer(contentType)
    requires Header(contentType, contentId, parent).Ok?
    ensures BrowseItems(contentType, contentId, parent, items).Ok?
            <==> forall i :: 0 <= i < |items| ==> ChildNode(items[i]).Ok?
    ensures BrowseItems(contentType, contentId, parent, items).Ok? ==>
      var cs := BrowseItems(contentType, contentId, parent, items).value.children;
      |cs| == |items|
      && forall i :: 0 <= i < |items| ==>
           var f := items[i].fields;
           && cs[i].canExpand == Truthy(f["IsFolder"])
           && cs[i].contentId == Plain(f["Id"])
           && cs[i].title == f["Name"]
           && Type2Mediaclass(f["Type"]) == Ok(cs[i].mediaClass)
           && Type2Mediatype(f["Type"]) == Ok(cs[i].contentType)
           && IsPlayable(f["Type"]) == Ok(cs[i].canPlay.v) && cs[i].canPlay.Plain?
           && cs[i].thumbnail == Artwork(f["Id"])
           && cs[i].children == []
  {
    if BrowseItems(contentType, contentId, parent, items).Ok? {
      var cs := BrowseItems(contentType, contentId, parent, items).value.children;
      assert Children(items) == Ok(cs);
      forall i | 0 <= i < |items|
        ensures cs[i].canExpand == Truthy(items[i].fields["IsFolder"])
      {
        assert ChildNode(items[i]) == Ok(cs[i]);
      }
    }
  }

  /** A container header takes its title and its play flag from the parent
      item, and its class and type from the content type browsed. */
  lemma ContainerHeader(contentType: Option<string>, contentId: Json, parent: Json)
    requires !IsRoot(contentType) && IsContainer(contentType)
    ensures Header(contentType, contentId, parent).Ok? <==>
      parent.Object? && "Name" in parent.fields && "Type" in parent.fields
      && parent.fields["Type"].Str? && parent.fields["Type"].s in JellyfinTypes
    ensures Header(contentType, contentId, parent).Ok? ==>
      var n := Header(contentType, contentId, parent).value;
      n.title == parent.fields["Name"] && IsPlayable(parent.fields["Type"]) == Ok(n.canPlay.v)
      && n.mediaClass == contentType.value && n.contentType == contentType.value
      && n.contentId == Plain(contentId) && n.canExpand && n.thumbnail == Artwork(contentId)
  {
  }

  /** A leaf browse looks at the first item only: with no item it is the
      placeholder directory node, otherwise the node takes the first item's
      name, id, type, class and play flag, is not expandable and has no children. */
  lemma LeafUsesFirstItem(contentType: Option<string>, contentId: Json, parent: Json, items: seq<Json>)
    requires !IsRoot(contentType) && !IsContainer(contentType)
    ensures items == [] ==>
      (BrowseItems(contentType, contentId, parent, items) ==
       Ok(Node(MediaClassDirectory, Plain(contentId), contentType.value, Str(""), Plain(true), false, Artwork(contentId), [])))
    ensures items != [] ==> BrowseItems(contentType, contentId, parent, items) == BrowseItems(contentType, contentId, parent, items[..1])
    ensures items != [] && BrowseItems(contentType, contentId, parent, items).Ok? ==>
      var n := BrowseItems(contentType, contentId, parent, items).value;
      var t := Index(items[0], "Type");
      && Index(items[0], "Name") == Ok(n.title)
      && n.contentId.Plain? && Index(items[0], "Id") == Ok(n.contentId.v)
      && t.Ok? && Type2Mediatype(t.value) == Ok(n.contentType) && Type2Mediaclass(t.value) == Ok(n.mediaClass)
      && !n.canExpand && n.canPlay.Plain? && IsPlayable(t.value) == Ok(n.canPlay.v)
      && n.children == [] && n.thumbnail == Artwork(contentId)
  {
  }

  /** A child's media type, browsed in turn, lists its children exactly when
      the item is not a movie, an episode or a track. */
  lemma ChildTypeBrowsable(t: string)
    requires t in JellyfinTypes
    ensures IsContainer(Some(Type2Mediatype(Str(t)).value)) <==> t !in {"Movie", "Episode", "Audio"}
    ensures !IsRoot(Some(Type2Mediatype(Str(t)).value))
  {
  }

  // ---------------------------------------------------------------------
  // The trailing commas in the leaf branch

  /** As written, the play flag of a leaf is a 1-tuple, so Home Assistant
      sees every leaf with an item as playable: a "Folder" item, which
      `IsPlayable` calls unplayable, gives a leaf whose flag is true, and
      whose id is a tuple rather than the item's id. Without the commas the
      same browse gives an unplayable leaf with the item's id. */
  lemma LeafFlagAlwaysTrue(contentId: Json, parent: Json, name: Json, id: Json)
    ensures IsPlayable(Str("Folder")) == Ok(false)
    ensures var item := Object(map["Name" := name, "Id" := id, "Type" := Str("Folder")]);
      var header := Header(Some(MediaTypeMovie), contentId, parent);
      var r := LeafUpdate(header.value, item);
      header.Ok? && r.Ok? && FlagTruthy(r.value.canPlay) && r.value.contentId == Single(id)
    ensures var item := Object(map["Name" := name, "Id" := id, "Type" := Str("Folder")]);
      var r := BrowseItems(Some(MediaTypeMovie), contentId, parent, [item]);
      r.Ok? && !FlagTruthy(r.value.canPlay) && r.value.contentId == Plain(id)
  {
    var item := Object(map["Name" := name, "Id" := id, "Type" := Str("Folder")]);
    var header := Node(MediaClassDirectory, Plain(contentId), MediaTypeMovie, Str(""),
                       Plain(true), false, Artwork(contentId), []);
    assert !IsRoot(Some(MediaTypeMovie)) && !IsContainer(Some(MediaTypeMovie));
    assert Header(Some(MediaTypeMovie), contentId, parent) == Ok(header);
    assert Index(item, "Name") == Ok(name) && Index(item, "Id") == Ok(id);
    assert Index(item, "Type") == Ok(Str("Folder"));
    assert LeafUpdate(header, item).value.canPlay == Single(false);
    assert LeafUpdateIntended(header, item).value.canPlay == Plain(false);
  }

  /** The leaf update without the trailing commas: the id and the play flag
      are the item's own values. */
  function LeafUpdateIntended(node: Node, item: Json): (r: Result<Node>)
    ensures r.Ok? ==> item.Object? && "Id" in item.fields && "Name" in item.fields
    ensures r.Ok? ==> && r.value.contentId == Plain(item.fields["Id"]) && r.value.canPlay.Plain?
                      && r.value.title == item.fields["Name"] && !r.value.canExpand
                      && r.value.thumbnail == node.thumbnail && r.value.children == node.children
  {
    var name :- Index(item, "Name");
    var id :- Index(item, "Id");
    var itemType :- Index(item, "Type");
    var mediaType :- Type2Mediatype(itemType);
    var mediaClass :- Type2Mediaclass(itemType);
    var playable :- IsPlayable(itemType);
    Ok(node.(title := name, contentId := Plain(id), contentType := mediaType,
             mediaClass := mediaClass, canExpand := false, canPlay := Plain(playable)))
  }

  /** Without the trailing commas a leaf is playable exactly when its item's
      type is, its id is the item's id, and everything else is as written. */
  lemma LeafIntendedPlayability(node: Node, item: Json)
    ensures LeafUpdateIntended(node, item).Ok? <==> LeafUpdate(node, item).Ok?
    ensures LeafUpdateIntended(node, item).Ok? ==>
      var n := LeafUpdateIntended(node, item).value;
      (FlagTruthy(n.canPlay) <==> IsPlayable(item.fields["Type"]) == Ok(true))
      && n.contentId == Plain(item.fields["Id"])
      && n == LeafUpdate(node, item).value.(contentId := n.contentId, canPlay := n.canPlay)
  {
  }

  // ---------------------------------------------------------------------
  // The BrowseMedia objects

  /** A Home Assistant `BrowseMedia` node, whose fields `library_items`
      assigns and whose children list it appends to. */
  class BrowseMedia {
    var mediaClass: string
    var contentId: Boxed<Json>
    var contentType: string
    var title: Json
    var canPlay: Boxed<bool>
    var canExpand: bool
    var thumbnail: Thumbnail
    var children: seq<BrowseMedia>

    constructor (mediaClass: string, contentId: Boxed<Json>, contentType: string, title: Json,
                 canPlay: Boxed<bool>, canExpand: bool, thumbnail: Thumbnail)
      ensures Shallow() == Node(mediaClass, contentId, contentType, title, canPlay, canExpand, thumbnail, [])
      ensures children == []
    {
      this.mediaClass := mediaClass;
      this.contentId := contentId;
      this.contentType := contentType;
      this.title := title;
      this.canPlay := canPlay;
      this.canExpand := canExpand;
      this.thumbnail := thumbnail;
      this.children := [];
    }

    /** The node's own fields, without its children. */
    function Shallow(): Node
      reads this
    {
      Node(mediaClass, contentId, contentType, title, canPlay, canExpand, thumbnail, [])
    }

    /** A node of one level: it is not its own child and its children have none. */
    ghost predicate Valid()
      reads this, children
    {
      this !in children && forall i :: 0 <= i < |children| ==> children[i].children == []
    }

    /** The node with its children, as a value. */
    function View(): Node
      reads this, children
    {
      Shallow().(children := Views(children))
    }
  }

  /** The values of a list of childless nodes. */
  function Views(cs: seq<BrowseMedia>): (r: seq<Node>)
    reads cs
    ensures |r| == |cs|
    decreases |cs|
  {
    if cs == [] then [] else Views(cs[..|cs| - 1]) + [cs[|cs| - 1].Shallow()]
  }

  /** A fresh child node for one item of a root or container browse. */
  method NewChild(item: Json) returns (r: Result<BrowseMedia>)
    ensures r.Ok? <==> ChildNode(item).Ok?
    ensures r.Err? ==> r.error == ChildNode(item).error
    ensures r.Ok? ==> fresh(r.value) && r.value.Shallow() == ChildNode(item).value && r.value.children == []
  {
    var folder := Index(item, "IsFolder");
    if folder.Err? { return Err(folder.error); }
    var itemType := Index(item, "Type");
    if itemType.Err? { return Err(itemType.error); }
    var mediaClass := Type2Mediaclass(itemType.value);
    if mediaClass.Err? { return Err(mediaClass.error); }
    var id := Index(item, "Id");
    if id.Err? { return Err(id.error); }
    // The three tables share their keys: once Type2Mediaclass has not raised,
    // neither Type2Mediatype nor IsPlayable does.
    var mediaType := Type2Mediatype(itemType.value).value;
    var name := Index(item, "Name");
    if name.Err? { return Err(name.error); }
    var playable := IsPlayable(itemType.value).value;
    var child := new BrowseMedia(mediaClass.value, Plain(id.value), mediaType, name.value,
                                 Plain(playable), Truthy(folder.value), Artwork(id.value));
    return Ok(child);
  }

  /** The header node, fresh. */
  method NewHeader(contentType: Option<string>, contentId: Json, fetchItem: Json -> Json)
    returns (r: Result<BrowseMedia>)
    ensures r.Ok? <==> Header(contentType, contentId, fetchItem(contentId)).Ok?
    ensures r.Err? ==> r.error == Header(contentType, contentId, fetchItem(contentId)).error
    ensures r.Ok? ==> fresh(r.value) && r.value.Shallow() == Header(contentType, contentId, fetchItem(contentId)).value
                      && r.value.children == []
  {
    if IsRoot(contentType) {
      var node := new BrowseMedia(MediaClassDirectory, Plain(Str(Library)), Library, Str("Media Library"),
                                  Plain(false), true, NoThumbnail);
      return Ok(node);
    } else if IsContainer(contentType) {
      var parent := fetchItem(contentId);
      var name := Index(parent, "Name");
      if name.Err? { return Err(name.error); }
      var itemType := Index(parent, "Type");
      if itemType.Err? { return Err(itemType.error); }
      var playable := IsPlayable(itemType.value);
      if playable.Err? { return Err(playable.error); }
      var node := new BrowseMedia(contentType.value, Plain(contentId), contentType.value, name.value,
                                  Plain(playable.value), true, Artwork(contentId));
      return Ok(node);
    } else {
      var node := new BrowseMedia(MediaClassDirectory, Plain(contentId), contentType.value, Str(""),
                                  Plain(true), false, Artwork(contentId));
      return Ok(node);
    }
  }

  /** The leaf branch without the trailing commas: the node's fields are
      assigned from the item, one after the other, until one raises. */
  method AssignLeaf(node: BrowseMedia, item: Json) returns (err: Option<PyError>)
    requires node.children == []
    modifies node
    ensures node.children == []
    ensures err.None? <==> LeafUpdateIntended(old(node.Shallow()), item).Ok?
    ensures err.Some? ==> err.value == LeafUpdateIntended(old(node.Shallow()), item).error
    ensures err.None? ==> node.Shallow() == LeafUpdateIntended(old(node.Shallow()), item).value
  {
    var name := Index(item, "Name");
    if name.Err? { return Some(name.error); }
    node.title := name.value;
    var id := Index(item, "Id");
    if id.Err? { return Some(id.error); }
    node.contentId := Plain(id.value);
    var itemType := Index(item, "Type");
    if itemType.Err? { return Some(itemType.error); }
    var mediaType := Type2Mediatype(itemType.value);
    if mediaType.Err? { return Some(mediaType.error); }
    node.contentType := mediaType.value;
    // The three tables share their keys: once Type2Mediatype has not raised,
    // neither Type2Mediaclass nor IsPlayable does.
    node.mediaClass := Type2Mediaclass(itemType.value).value;
    node.canExpand := false;
    node.canPlay := Plain(IsPlayable(itemType.value).value);
    return None;
  }

  /** One pass of the loop of a root or container browse: the child for
      `item` is appended, or the item's exception is raised. */
  method AppendChild(node: BrowseMedia, item: Json, ghost done: seq<Json>) returns (err: Option<PyError>)
    requires node.Valid() && Children(done) == Ok(Views(node.children))
    modifies node
    ensures node.Valid() && node.Shallow() == old(node.Shallow())
    ensures err.None? <==> Children(done + [item]).Ok?
    ensures err.Some? ==> err.value == Children(done + [item]).error
    ensures err.None? ==> Children(done + [item]) == Ok(Views(node.children))
  {
    ChildrenSnoc(done, item);
    var child := NewChild(item);
    if child.Err? {
      return Some(child.error);
    }
    ghost var before := node.children;
    ghost var views := Views(before);
    node.children := node.children + [child.value];
    assert Views(before) == views;
    assert node.children[..|node.children| - 1] == before;
    assert Views(node.children) == views + [child.value.Shallow()];
    return None;
  }

  /** The children of one more item: those of the earlier items and then its own. */
  lemma ChildrenSnoc(done: seq<Json>, item: Json)
    ensures Children(done + [item]) ==
      (var front :- Children(done); var last :- ChildNode(item); Ok(front + [last]))
  {
    assert (done + [item])[..|done|] == done;
  }

  /** The state of the loop before `items[i]`: the node's own fields are
      those of the header; a listing node has the children of the first i
      items, a leaf node is still untouched. */
  ghost predicate Progress(node: BrowseMedia, start: Node, listing: bool, items: seq<Json>, i: nat)
    reads node, node.children
  {
    && i <= |items|
    && node.Shallow() == start
    && (listing ==> Children(items[..i]) == Ok(Views(node.children)))
    && (!listing ==> i == 0 && node.children == [])
  }

  /** One pass of the loop of `library_items`, for `items[i]`: a root or
      container browse appends the item's child, a leaf browse assigns the
      node's fields from it and stops. */
  method VisitItem(node: BrowseMedia, listing: bool, items: seq<Json>, i: nat, ghost start: Node)
    returns (err: Option<PyError>, stop: bool)
    requires i < |items| && node.Valid() && Progress(node, start, listing, items, i)
    modifies node
    ensures node.Valid()
    ensures err.Some? ==> Fill(start, listing, items) == Err(err.value)
    ensures err.None? && stop ==> Fill(start, listing, items) == Ok(node.View())
    ensures err.None? && !stop ==> Progress(node, start, listing, items, i + 1)
  {
    if listing {
      assert items[..i + 1] == items[..i] + [items[i]];
      err := AppendChild(node, items[i], items[..i]);
      if err.Some? {
        ChildrenErrorSticks(items, i + 1);
      }
      return err, false;
    } else {
      err := AssignLeaf(node, items[i]);
      return err, true;
    }
  }

  /** The loop of `library_items` over the items `get_items` returned. */
  method FillNode(node: BrowseMedia, listing: bool, items: seq<Json>) returns (err: Option<PyError>)
    requires node.Valid() && node.children == []
    modifies node
    ensures node.Valid()
    ensures err.Some? ==> Fill(old(node.Shallow()), listing, items) == Err(err.value)
    ensures err.None? ==> Fill(old(node.Shallow()), listing, items) == Ok(node.View())
  {
    ghost var start := node.Shallow();
    var i := 0;
    while i < |items|
      invariant 0 <= i <= |items|
      invariant node.Valid() && Progress(node, start, listing, items, i)
    {
      var stop;
      err, stop := VisitItem(node, listing, items, i, start);
      if err.Some? || stop {
        return err;
      }
      i := i + 1;
    }
    assert listing ==> items[..i] == items;
    FillFinished(start, listing, items, Views(node.children));
    return None;
  }

  /** A loop that runs to the end: every item listed, or no item for a leaf. */
  lemma FillFinished(start: Node, listing: bool, items: seq<Json>, cs: seq<Node>)
    requires listing ==> Children(items) == Ok(cs)
    requires !listing ==> items == [] && cs == []
    requires start.children == []
    ensures Fill(start, listing, items) == Ok(start.(children := cs))
  {
  }

  /** `library_items`: the query it sends, and the node it returns (a fresh
      one-level tree whose value is `Browse`) or the exception it raises. */
  method LibraryItems(contentType: Option<string>, contentId: Json,
                      fetchItem: Json -> Json, fetchItems: Query -> seq<Json>)
    returns (query: Query, r: Result<BrowseMedia>)
    ensures query == BrowseQuery(contentType, contentId)
    ensures r.Ok? <==> Browse(contentType, contentId, fetchItem, fetchItems).Ok?
    ensures r.Err? ==> r.error == Browse(contentType, contentId, fetchItem, fetchItems).error
    ensures r.Ok? ==> fresh(r.value) && r.value.Valid()
                      && r.value.View() == Browse(contentType, contentId, fetchItem, fetchItems).value
  {
    query := BrowseQuery(contentType, contentId);
    var header := NewHeader(contentType, contentId, fetchItem);
    if header.Err? {
      return query, Err(header.error);
    }
    var node := header.value;
    var items := fetchItems(query);
    var err := FillNode(node, IsRoot(contentType) || IsContainer(contentType), items);
    if err.Some? {
      return query, Err(err.value);
    }
    return query, Ok(node);
  }
}
