/** The local image graph as the pull loop sees it: a store of image records
    and their layer archives keyed by id, with `Exists` and `Register`. The
    graph's own implementation (directories under its root, temporary
    directories, renames) is not part of this model; whether a write
    succeeds is a parameter of `Register`. */
module ImageGraph {
  import opened ImageModel

  class Graph {
    var images: map<Id, Image>
    var layers: map<Id, Layer>

    /** Every stored id has both its record and its layer, and a record is
        stored under its own id. */
    ghost predicate Valid()
      reads this
    {
      && images.Keys == layers.Keys
      && forall id :: id in images ==> images[id].id == id
    }

    constructor ()
      ensures Valid() && images == map[] && layers == map[]
    {
      images, layers := map[], map[];
    }

    /** Exists(id): the graph holds a complete image under `id`: in a valid
        graph its record and its layer, the record carrying that id. */
    predicate Exists(id: Id): (b: bool)
      reads this
      ensures b && Valid() ==> id in layers && images[id].id == id
    {
      id in images
    }

    /** Register(layer, img): store the record and its layer under `img.id`,
        both or neither. `written` says whether the storage write succeeds. */
    method Register(layer: Layer, img: Image, written: bool) returns (ok: bool)
      requires Valid()
      modifies this
      ensures Valid()
      ensures ok == written
      ensures ok ==> images == old(images)[img.id := img] && layers == old(layers)[img.id := layer]
      ensures !ok ==> images == old(images) && layers == old(layers)
    {
      ok := written;
      if ok {
        images := images[img.id := img];
        layers := layers[img.id := layer];
      }
    }
  }
}
