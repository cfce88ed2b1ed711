// Audio that arrives in blocks.
module Blocks {

  // The stream that blocks written end to end make up.
  function Flat(blocks: seq<seq<real>>): seq<real> {
    if blocks == [] then [] else Flat(blocks[..|blocks| - 1]) + blocks[|blocks| - 1]
  }
}
