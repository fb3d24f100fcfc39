/** internal/card/card.go: the card record shared by the deck tables and the
    `show` command. */
module Cards {

  /** One tarot card. `cardType` is the source's Type field: "major_arcana"
      or "minor_arcana". Major cards carry `number` ("00".."21"), minor cards
      `suit` and `rank`; the other fields are empty strings. */
  datatype Card = Card(
    id: string,
    name: string,
    cardType: string,
    number: string,
    suit: string,
    rank: string,
    altText: string)
}
