/** The records the pages list and look up: content items and creators, as
    the static catalogue shapes them, and lookup by id. */
module Catalog {
  import opened Js
  import opened Seqs

  /** A content item. `kind` is the item's `type` ('nft', 'token',
      'creator_token'); `createdAt` is its date as a timestamp. */
  datatype Content = Content(
    id: string,
    title: string,
    image: string,
    description: string,
    creatorId: string,
    createdAt: int,
    likes: int,
    comments: int,
    price: real,
    kind: string,
    isSubscriberOnly: bool)

  datatype Creator = Creator(
    id: string,
    name: string,
    username: string,
    avatar: string,
    bio: string,
    category: string,
    followers: int,
    tokenPrice: real,
    tokenChange: real)

  function HasContentId(id: string): Content -> bool
  {
    (c: Content) => c.id == id
  }

  function HasCreatorId(id: string): Creator -> bool
  {
    (c: Creator) => c.id == id
  }

  /** Position k holds the first item with that id. */
  predicate FirstContentAt(contents: seq<Content>, id: string, k: int)
  {
    0 <= k < |contents| && contents[k].id == id && forall j :: 0 <= j < k ==> contents[j].id != id
  }

  /** Position k holds the first creator with that id. */
  predicate FirstCreatorAt(creators: seq<Creator>, id: string, k: int)
  {
    0 <= k < |creators| && creators[k].id == id && forall j :: 0 <= j < k ==> creators[j].id != id
  }

  /** `contents.find(c => c.id === id)`: the first item with that id, if any. */
  function FindContent(contents: seq<Content>, id: string): (r: Option<Content>)
    ensures r.None? <==> forall i :: 0 <= i < |contents| ==> contents[i].id != id
    ensures r.Some? ==> r.value.id == id && exists i :: FirstContentAt(contents, id, i) && contents[i] == r.value
  {
    var k := FindFirst(contents, HasContentId(id));
    if k == -1 then None else Some(contents[k])
  }

  /** `creators.find(c => c.id === id)`: the first creator with that id, if any. */
  function FindCreator(creators: seq<Creator>, id: string): (r: Option<Creator>)
    ensures r.None? <==> forall i :: 0 <= i < |creators| ==> creators[i].id != id
    ensures r.Some? ==> r.value.id == id && exists i :: FirstCreatorAt(creators, id, i) && creators[i] == r.value
  {
    var k := FindFirst(creators, HasCreatorId(id));
    if k == -1 then None else Some(creators[k])
  }
}
