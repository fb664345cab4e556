/**
 * The parts of the external game engine that the server core calls into.
 * Their internals are not part of this model: positions are plain vectors,
 * a chunk is a map from tile coordinates to tiles, the world is a map from
 * chunk coordinates to loaded chunks plus the chunks held in the backing
 * store, and the concurrent queue is a sequence.
 */
module Engine {
  import opened Wrappers

  type byte = bv8

  /** A 2D vector (pixel.Vec); floating point is modelled by reals. */
  datatype Vec = Vec(x: real, y: real)

  const ZeroVec := Vec(0.0, 0.0)

  /** The live state of a connected player. */
  datatype Player = Player(position: Vec, velocity: Vec)

  /** The player that engine.NewPlayer(pixel.Vec{}, ...) creates, assumed at rest at the origin. */
  const NewPlayer := Player(ZeroVec, ZeroVec)

  /** Integer chunk or tile coordinates. */
  datatype Coord = Coord(x: int, y: int)

  /** A tile: its decoded content and the back-reference to its owning chunk. */
  datatype Tile = Tile(content: seq<byte>, chunk: Option<Coord>)

  /** A chunk of the world, addressed by its coordinates. */
  datatype Chunk = Chunk(coords: Coord, tiles: map<Coord, Tile>)
  {
    /** The chunk with the tile at (tileX, tileY) replaced by `tile`. */
    function ReplaceTile(tileX: int, tileY: int, tile: Tile): (c: Chunk)
      ensures c.coords == coords
      ensures c.tiles.Keys == tiles.Keys + {Coord(tileX, tileY)}
      ensures c.tiles[Coord(tileX, tileY)] == tile
      ensures forall t :: t in tiles && t != Coord(tileX, tileY) ==> c.tiles[t] == tiles[t]
    {
      this.(tiles := tiles[Coord(tileX, tileY) := tile])
    }
  }

  /** The global world (engine.GWorld): loaded chunks and the durable chunk store. */
  class World {
    var chunks: map<Coord, Chunk>
    var stored: map<Coord, Chunk>

    /** `World{}` followed by `Init`: nothing loaded yet, over the durable store `stored`. */
    constructor (stored: map<Coord, Chunk>)
      ensures this.chunks == map[] && this.stored == stored
    {
      this.chunks := map[];
      this.stored := stored;
    }

    /** The loaded chunk at `c`, or nil; never loads or creates one. */
    method GetChunk(c: Coord) returns (r: Option<Chunk>)
      ensures c in chunks ==> r == Some(chunks[c])
      ensures c !in chunks ==> r == None
    {
      if c in chunks {
        r := Some(chunks[c]);
      } else {
        r := None;
      }
    }

    /**
     * Loads the chunk at `c` from the store if it is there; otherwise
     * synthesises it with the world generator and stores it. `loadOk` says
     * whether the engine manages to; when it does not, nothing changes.
     */
    method LoadOrCreateChunk(c: Coord, generate: Coord -> Chunk, loadOk: bool)
      modifies this
      ensures !loadOk ==> unchanged(this)
      ensures loadOk && c in old(stored) ==> chunks == old(chunks)[c := old(stored)[c]] && stored == old(stored)
      ensures loadOk && c !in old(stored) ==>
                chunks == old(chunks)[c := generate(c)] && stored == old(stored)[c := generate(c)]
    {
      if !loadOk {
        return;
      }
      if c in stored {
        chunks := chunks[c := stored[c]];
      } else {
        var made := generate(c);
        chunks := chunks[c := made];
        stored := stored[c := made];
      }
    }

    /** Chunk.ReplaceTile on the loaded chunk at `c`. */
    method ReplaceTile(c: Coord, tileX: int, tileY: int, tile: Tile)
      requires c in chunks
      modifies this
      ensures chunks == old(chunks)[c := old(chunks)[c].ReplaceTile(tileX, tileY, tile)]
      ensures stored == old(stored)
    {
      chunks := chunks[c := chunks[c].ReplaceTile(tileX, tileY, tile)];
    }

    /**
     * Chunk.PersistToDisk on the loaded chunk at `c`; `storeOk` says whether
     * the write to the backing store succeeds.
     */
    method PersistToDisk(c: Coord, storeOk: bool) returns (err: Option<string>)
      requires c in chunks
      modifies this
      ensures chunks == old(chunks)
      ensures storeOk ==> err == None && stored == old(stored)[c := chunks[c]]
      ensures !storeOk ==> err.Some? && stored == old(stored)
    {
      if storeOk {
        stored := stored[c := chunks[c]];
        err := None;
      } else {
        err := Some("failed to persist chunk");
      }
    }
  }

  /** engine.ConcurrentQueue: a FIFO of pending items. */
  class ConcurrentQueue<T> {
    var items: seq<T>

    constructor ()
      ensures items == []
    {
      items := [];
    }

    method Push(x: T)
      modifies this
      ensures items == old(items) + [x]
    {
      items := items + [x];
    }

    /** Iterating the queue: hands out everything queued, in FIFO order, and empties it. */
    method Drain() returns (drained: seq<T>)
      modifies this
      ensures drained == old(items)
      ensures items == []
    {
      drained := items;
      items := [];
    }
  }
}
