/** The state every fractal object carries: its pixel size and its parameter dictionary. */
module Fractal {
  import opened ParamBag

  class FractalBase {
    var width: int
    var height: int
    var params: Bag

    /** `FractalBase.__init__`: stores the size and starts with no parameters. */
    constructor (width: int, height: int)
      ensures this.width == width && this.height == height
      ensures params == map[]
    {
      this.width := width;
      this.height := height;
      params := map[];
    }

    /** `resize`: the new size replaces the old one; the parameters are not touched. */
    method Resize(width: int, height: int)
      modifies this
      ensures this.width == width && this.height == height
      ensures params == old(params)
    {
      this.width := width;
      this.height := height;
    }
  }
}
