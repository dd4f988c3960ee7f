/**
 * The two browser objects the editor touches: a picked file and a drawing
 * canvas. Only the parts the editor reads or assigns are modelled.
 */
module Browser {

  /** An entry of an `<input type="file">` selection: its name and its bytes. */
  datatype File = File(name: string, bytes: seq<bv8>)

  /** An offscreen canvas element; its size is assigned in place. */
  class Canvas {
    var width: nat
    var height: nat

    /** `document.createElement("canvas")`: a fresh canvas has the HTML default size 300 x 150. */
    constructor ()
      ensures width == 300 && height == 150
    {
      width, height := 300, 150;
    }
  }
}
