/** What a status badge shows: one of the Badge component's colour variants and its caption. */
module Badge {

  datatype Variant = Success | Primary | Info | Warning | Danger | Secondary

  datatype StatusBadge = StatusBadge(variant: Variant, caption: string)
}
