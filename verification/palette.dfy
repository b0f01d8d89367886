/** Colour and icon choices reduced to tags: the pages pick a badge colour or
    an icon from a fixed palette, and only the choice matters here. */
module Palette {

  /** The colour families of the badge classes (`bg-green-100 text-green-800 …`). */
  datatype Tone = Blue | Purple | Green | Orange | Teal | Red | Yellow | Gray

  /** The icons of the icon library that the pages choose between. */
  datatype Icon = FileTextIcon | FileSpreadsheetIcon | GenericFileIcon
                | BotIcon | SearchIcon | DatabaseIcon | BarChartIcon | ClockIcon
}
