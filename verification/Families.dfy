// The two address families.

module Families {
  datatype Family = V4 | V6
}
