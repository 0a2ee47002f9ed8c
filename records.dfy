/** One listing (one row of the booking or the agoda table), addressed by its
    position in its table. */
module Records {

  /** The attributes both sources carry and the result shows side by side:
      titolo, zona, città, distanza_centro, prezzo, recensione_voto_numerico,
      recensione_voto_parola, numero_recensioni. */
  datatype Shared = Shared(
    title: string,
    zone: string,
    city: string,
    distanceFromCentre: real,
    price: real,
    reviewScore: real,
    reviewWord: string,
    reviewCount: int)

  /** The stay attributes (numero_notti, numero_persone, inizio_permanenza,
      fine_permanenza), which the result takes from the agoda side only. */
  datatype Stay = Stay(nights: int, guests: int, checkIn: string, checkOut: string)

  /** A listing: its processed title (titolo_processed, the blocking and
      comparison field) and its other attributes. */
  datatype Listing = Listing(processedTitle: string, shared: Shared, stay: Stay)

  function ProcessedTitles(table: seq<Listing>): seq<string> {
    seq(|table|, i requires 0 <= i < |table| => table[i].processedTitle)
  }
}
