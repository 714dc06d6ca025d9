// What the layout places and the router avoids.

module Geometry {
  datatype Rect = Rect(x: real, y: real, w: real, h: real)
}
