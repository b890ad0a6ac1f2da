/** The newsletter record the frontend receives from the list endpoint and passes between views. */
module NewsletterCard {
  datatype Newsletter = Newsletter(
    id: string,
    name: string,
    prompt: string,
    createdAt: string,
    subscriberCount: int)
}
